/** The http resource (internal/provider/http/resource_http.go): the
    configurations its schema validators accept, what the fetch pipeline
    makes of such a configuration, and the lifecycle calls around it. */
module HttpResource {
  import opened Wrappers
  import opened Framework
  import opened NetHttp
  import opened Fetch
  import RetryPolicy

  /** The methods the method attribute accepts. */
  const AllowedMethods: set<string> := {"GET", "POST", "HEAD"}

  /** stringvalidator.OneOf: a null or unknown value is not checked. */
  predicate OneOf(v: Value<string>, allowed: set<string>)
  {
    v.Known? ==> v.v in allowed
  }

  /** int64validator.AtLeast: a null or unknown value is not checked. */
  predicate AtLeast(v: Value<int>, min: int)
  {
    v.Known? ==> v.v >= min
  }

  /** int64validator.AtLeastSumOf over one other attribute: a null term
      adds nothing, and an unknown one leaves nothing to compare. */
  predicate AtLeastSumOf(v: Value<int>, term: Value<int>)
  {
    v.Known? && !term.Unknown? ==> v.v >= term.ValueOr(0)
  }

  /** stringvalidator.ConflictsWith: a non-null value requires the other
      attribute to be null. */
  predicate ConflictsWith<A, B>(own: Value<A>, other: Value<B>)
  {
    !own.Null? ==> other.Null?
  }

  /** stringvalidator.AlsoRequires: a non-null value requires the other
      attribute to be non-null. */
  predicate AlsoRequires<A, B>(own: Value<A>, other: Value<B>)
  {
    !own.Null? ==> !other.Null?
  }

  /** The validators of the retry block's attributes. */
  predicate ValidRetry(r: RetryModel)
  {
    && AtLeast(r.attempts, 0)
    && AtLeast(r.minDelay, 0)
    && AtLeast(r.maxDelay, 0)
    && AtLeastSumOf(r.maxDelay, r.minDelay)
  }

  /** A configuration the schema accepts: the required url is given and
      every validator passes. */
  predicate ValidConfig(s: HttpState)
  {
    && !s.url.Null?
    && OneOf(s.httpMethod, AllowedMethods)
    && AtLeast(s.requestTimeout, 1)
    && (s.retry.Known? ==> ValidRetry(s.retry.v))
    && ConflictsWith(s.caCertificate, s.insecure)
    && AlsoRequires(s.clientCert, s.clientKey)
    && AlsoRequires(s.clientKey, s.clientCert)
  }

  /** With a valid configuration, read sends one of the allowed methods,
      uses a configured timeout as it is, never sets a negative RetryMax,
      takes both wait bounds from the retry block when it gives them and
      never sets the minimum wait above the maximum. */
  lemma ValidSettings(s: HttpState, tls: TlsConfig)
    requires ValidConfig(s)
    ensures RequestMethod(s) in AllowedMethods
    ensures var c := Settings(s, tls);
      && c.timeoutMs == (if s.requestTimeout.Known? then Some(s.requestTimeout.v) else None)
      && c.retryMax >= 0
      && (s.retry.Known? && s.retry.v.minDelay.Known? ==> c.waitMinMs == Some(s.retry.v.minDelay.v))
      && (s.retry.Known? && s.retry.v.maxDelay.Known? ==> c.waitMaxMs == Some(s.retry.v.maxDelay.v))
      && (c.waitMinMs.Some? && c.waitMaxMs.Some? ==> c.waitMinMs.value <= c.waitMaxMs.value)
  {
    if s.httpMethod.Known? && s.httpMethod.v != "" {
      assert RequestMethod(s) == s.httpMethod.v;
    }
  }

  /** N retry attempts allow at most N + 1 tries, and a configuration
      without a retry block allows exactly one, whatever the server does. */
  lemma TriesBound(s: HttpState, tls: TlsConfig, baseline: RetryPolicy.Baseline,
                   server: nat -> RetryPolicy.Observation)
    requires ValidConfig(s)
    requires forall k :: RetryPolicy.Delivered(server(k))
    ensures Settings(s, tls).retryMax >= 0
    ensures var c := Settings(s, tls);
      RetryPolicy.Tries(c.successCodes, baseline, server, c.retryMax) <= RetryBlock(s).attempts.ValueOr(0) + 1
    ensures !s.retry.Known? ==>
      var c := Settings(s, tls);
      RetryPolicy.Tries(c.successCodes, baseline, server, c.retryMax) == 1
  {
    ValidSettings(s, tls);
  }

  /** With a valid configuration, a client certificate is presented exactly
      when one is configured, and a custom CA pool never goes together with
      skipped certificate verification. */
  lemma ValidTls(s: HttpState, env: Env)
    requires ValidConfig(s)
    requires Transport(s, env).Success?
    ensures var tls := Transport(s, env).value;
      && !(tls.rootCAs.Some? && tls.insecureSkipVerify)
      && (tls.certificate.Some? <==> !s.clientCert.Null?)
      && (tls.certificate.Some? <==> !s.clientKey.Null?)
  {
    TransportOutcome(s, env);
  }

  /** The validators are what rule these out: read itself accepts a CA
      certificate together with insecure, and a certificate without its
      key, which it silently leaves unused. */
  lemma UnvalidatedTls(s: HttpState, env: Env)
    requires env.defaultTransportOk && env.appendCertsFromPem("ca")
    requires s.caCertificate == Known("ca") && s.insecure == Known(true)
    requires s.clientCert == Known("cert") && s.clientKey == Null
    ensures !ValidConfig(s)
    ensures Transport(s, env).Success?
    ensures Transport(s, env).value == TlsConfig(true, Some("ca"), None)
  {
  }

  /** What a refresh (Create or Update) leaves, from the diagnostics d and
      the response state before it: when loading the model reported an
      error, only those diagnostics; otherwise the diagnostics read ended
      with (readDiags) followed by those of storing the state, and the model
      stored whether or not read reported an error: untouched after an
      error, with the response Do brought back written into it otherwise.
      A request sent uses the loaded method, URL and client settings. */
  ghost predicate Refreshed(loaded: Loaded<HttpState>, env: Env, stored: seq<Diagnostic>,
                            d: seq<Diagnostic>, state0: Option<HttpState>,
                            items: seq<Diagnostic>, state: Option<HttpState>,
                            sent: Option<Exchange>, readDiags: seq<Diagnostic>)
  {
    var d0 := d + loaded.diags;
    if HasError(d0) then
      items == d0 && state == state0 && sent.None?
    else
      && d0 <= readDiags
      && items == readDiags + stored
      && state.Some?
      && (HasError(readDiags) ==> state.value == loaded.value)
      && (!HasError(readDiags) ==>
            && sent.Some?
            && env.execute(sent.value).DoSucceeded?
            && env.execute(sent.value).response.body.Success?
            && state.value == Written(loaded.value, env.execute(sent.value).response))
      && (sent.Some? ==>
            && Transport(loaded.value, env).Success?
            && sent.value.config == Settings(loaded.value, Transport(loaded.value, env).value)
            && sent.value.request.httpMethod == RequestMethod(loaded.value)
            && sent.value.request.url == loaded.value.url.ValueOr(""))
  }

  /** The steps Create and Update share: append the load's diagnostics,
      stop on an error, run read on the model and store it. */
  method Refresh(loaded: Loaded<HttpState>, env: Env, stored: seq<Diagnostic>, response: ResourceResponse<HttpState>)
    returns (ghost sent: Option<Exchange>, ghost readDiags: seq<Diagnostic>)
    modifies response, response.diagnostics
    ensures Refreshed(loaded, env, stored, old(response.diagnostics.items), old(response.state),
                      response.diagnostics.items, response.state, sent, readDiags)
  {
    sent, readDiags := None, [];
    ghost var d := response.diagnostics.items;
    response.diagnostics.Append(loaded.diags);
    if HasError(response.diagnostics.items) {
      return;
    }
    var model := new HttpModel(loaded.value);
    ghost var stage: Stage, headerDiags: seq<Diagnostic>;
    stage, headerDiags, sent := model.Read(env, response.diagnostics);
    ConfiguredOutcome(loaded.value, env, d + loaded.diags);
    readDiags := response.diagnostics.items;
    response.state := Some(model.State());
    response.diagnostics.Append(stored);
  }

  /** Create: the model comes from the configuration (Config.Get). */
  method Create(config: Loaded<HttpState>, env: Env, stored: seq<Diagnostic>, response: ResourceResponse<HttpState>)
    returns (ghost sent: Option<Exchange>, ghost readDiags: seq<Diagnostic>)
    modifies response, response.diagnostics
    ensures Refreshed(config, env, stored, old(response.diagnostics.items), old(response.state),
                      response.diagnostics.items, response.state, sent, readDiags)
  {
    sent, readDiags := Refresh(config, env, stored, response);
  }

  /** Update: the model comes from the prior state (State.Get), so the
      request is sent with the attributes already stored. */
  method Update(prior: Loaded<HttpState>, env: Env, stored: seq<Diagnostic>, response: ResourceResponse<HttpState>)
    returns (ghost sent: Option<Exchange>, ghost readDiags: seq<Diagnostic>)
    modifies response, response.diagnostics
    ensures Refreshed(prior, env, stored, old(response.diagnostics.items), old(response.state),
                      response.diagnostics.items, response.state, sent, readDiags)
  {
    sent, readDiags := Refresh(prior, env, stored, response);
  }

  /** Read: the prior state is stored again as it was loaded; nothing is fetched. */
  method Read(prior: Loaded<HttpState>, stored: seq<Diagnostic>, response: ResourceResponse<HttpState>)
    modifies response, response.diagnostics
    ensures var d0 := old(response.diagnostics.items) + prior.diags;
      if HasError(d0) then response.diagnostics.items == d0 && response.state == old(response.state)
      else response.diagnostics.items == d0 + stored && response.state == Some(prior.value)
  {
    response.diagnostics.Append(prior.diags);
    if HasError(response.diagnostics.items) {
      return;
    }
    response.state := Some(prior.value);
    response.diagnostics.Append(stored);
  }

  /** Delete: only the diagnostics of loading the prior state. */
  method Delete(prior: Loaded<HttpState>, response: ResourceResponse<HttpState>)
    modifies response.diagnostics
    ensures response.diagnostics.items == old(response.diagnostics.items) + prior.diags
  {
    response.diagnostics.Append(prior.diags);
  }

  /** ImportState: importing is not supported and always reports an error. */
  method ImportState(response: ResourceResponse<HttpState>)
    modifies response.diagnostics
    ensures response.diagnostics.items
            == old(response.diagnostics.items) + [ErrorDiagnostic("Not Implemented.", "Not implemented.")]
    ensures HasError(response.diagnostics.items)
  {
    response.diagnostics.AddError("Not Implemented.", "Not implemented.");
  }
}
