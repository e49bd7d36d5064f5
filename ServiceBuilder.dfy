/**
 * The service builder (C2DMServiceBuilder): setters fill in a
 * configuration; build validates it and decides which client and which
 * strategies to assemble, returned as a plan rather than live objects.
 */
module ServiceBuilder {
  import opened Wrappers
  import Utilities

  /** An ExecutorService, supplied by the caller or created by asPool. */
  datatype ExecutorRef = ExecutorRef(id: nat)
  /** A caller-supplied HttpClient. */
  datatype ClientRef = ClientRef(id: nat)
  /** A caller-supplied C2DMDelegate. */
  datatype DelegateRef = DelegateRef(id: nat)
  /** An HttpHost for the proxy. */
  datatype Proxy = Proxy(host: string, port: int)

  /** The builder's fields; None stands for a null reference. */
  datatype BuilderConfig = BuilderConfig(
    serviceUri: string,
    authToken: Option<string>,
    pooledMax: int,
    executor: Option<ExecutorRef>,
    isQueued: bool,
    proxy: Option<Proxy>,
    httpClient: Option<ClientRef>,
    timeout: int,
    delegate: Option<DelegateRef>)

  /** The field initialisers. */
  const DefaultConfig: BuilderConfig :=
    BuilderConfig(Utilities.DefaultServiceUri, None, 1, None, false, None, None, -1, None)

  /** Where the HttpClient comes from. */
  datatype ClientSource =
    | Supplied(client: ClientRef)        // withHttpClient wins
    | PlainClient                        // new DefaultHttpClient()
    | PooledClient(maxConnections: int)  // DefaultHttpClient over poolManager(pooledMax)

  /** The client and the parameters build sets on it. */
  datatype ClientPlan = ClientPlan(
    source: ClientSource,
    proxy: Option<Proxy>,
    connectionTimeout: Option<int>,
    socketTimeout: Option<int>)

  /** The service object graph build assembles. */
  datatype ServicePlan =
    | Synchronous(client: ClientPlan, serviceUri: string, authToken: string, delegate: Option<DelegateRef>)
    | Pooled(client: ClientPlan, serviceUri: string, authToken: string, executor: ExecutorRef,
             delegate: Option<DelegateRef>)
    | Queued(inner: ServicePlan, serviceUri: string, authToken: string)

  /** The assembled service together with the services build called start on, in order. */
  datatype Built = Built(service: ServicePlan, startCalls: seq<ServicePlan>)

  /** The IllegalStateException messages of checkInitialization. */
  datatype BuildError = AuthTokenRequired | ExecutorRequired

  /** The IllegalArgumentException of Executors.newFixedThreadPool. */
  datatype PoolError = NonPositivePoolSize

  /**
   * checkInitialization: fails exactly when no auth token was set, or when
   * pooledMax is not 1 and no executor was given; the missing token is
   * reported first.
   */
  function CheckInitialization(c: BuilderConfig): (r: Outcome<BuildError>)
    ensures r.Fail? <==> c.authToken.None? || (c.pooledMax != 1 && c.executor.None?)
    ensures c.authToken.None? ==> r == Fail(AuthTokenRequired)
    ensures c.authToken.Some? && r.Fail? ==> r == Fail(ExecutorRequired)
  {
    if c.authToken.None? then Fail(AuthTokenRequired)
    else if c.pooledMax != 1 && c.executor.None? then Fail(ExecutorRequired)
    else Pass
  }

  /**
   * The client configuration part of build. A supplied client always wins;
   * otherwise pooledMax 1 gives a plain client and any other value a pooled
   * connection manager of that size. The proxy is set whenever given, and
   * the timeout is applied to both the connect and the socket timeout only
   * when positive.
   */
  function ClientFor(c: BuilderConfig): (p: ClientPlan)
    ensures c.httpClient.Some? ==> p.source == Supplied(c.httpClient.value)
    ensures c.httpClient.None? && c.pooledMax == 1 ==> p.source == PlainClient
    ensures c.httpClient.None? && c.pooledMax != 1 ==> p.source == PooledClient(c.pooledMax)
    ensures p.proxy == c.proxy
    ensures p.connectionTimeout.Some? <==> c.timeout > 0
    ensures p.connectionTimeout.Some? ==> p.connectionTimeout.value == c.timeout
    ensures p.socketTimeout == p.connectionTimeout
  {
    var source :=
      if c.httpClient.Some? then Supplied(c.httpClient.value)
      else if c.pooledMax == 1 then PlainClient
      else PooledClient(c.pooledMax);
    var timeout := if c.timeout > 0 then Some(c.timeout) else None;
    ClientPlan(source, c.proxy, timeout, timeout)
  }

  /**
   * build: validate, configure the client, pick the strategy, maybe wrap
   * it, start it. It fails exactly as checkInitialization does; asQueued
   * wraps the strategy in exactly one queued service with the same URI and
   * token, and only the outermost service is started, once.
   */
  function Plan(c: BuilderConfig): (r: Result<Built, BuildError>)
    ensures r.Failure? <==> CheckInitialization(c).Fail?
    ensures r.Failure? ==> Fail(r.error) == CheckInitialization(c)
    ensures r.Success? ==>
      (&& QueuedDepth(r.value.service) == (if c.isQueued then 1 else 0)
       && (r.value.service.Queued? ==>
             r.value.service.serviceUri == c.serviceUri && Some(r.value.service.authToken) == c.authToken)
       && Innermost(r.value.service).client == ClientFor(c)
       && r.value.startCalls == [r.value.service])
  {
    match CheckInitialization(c)
    case Fail(e) => Failure(e)
    case Pass =>
      var client := ClientFor(c);
      var token := c.authToken.value;
      var strategy :=
        if c.pooledMax == 1 then Synchronous(client, c.serviceUri, token, c.delegate)
        else Pooled(client, c.serviceUri, token, c.executor.value, c.delegate);
      var service := if c.isQueued then Queued(strategy, c.serviceUri, token) else strategy;
      Success(Built(service, [service]))
  }

  /** How many queued layers wrap the strategy. */
  function QueuedDepth(p: ServicePlan): nat
  {
    match p
    case Queued(inner, _, _) => 1 + QueuedDepth(inner)
    case _ => 0
  }

  /** The strategy under every queued layer. */
  function Innermost(p: ServicePlan): (s: ServicePlan)
    ensures !s.Queued?
  {
    match p
    case Queued(inner, _, _) => Innermost(inner)
    case _ => p
  }

  /**
   * On success: pooledMax 1 selects the synchronous service even when an
   * executor was given, any other value the pooled service with the given
   * executor; both get the configured URI, token and delegate.
   */
  lemma PlanStrategy(c: BuilderConfig)
    requires Plan(c).Success?
    ensures var s := Innermost(Plan(c).value.service);
      && (s.Synchronous? <==> c.pooledMax == 1)
      && (s.Pooled? ==> s.executor == c.executor.value && c.executor.Some?)
      && s.serviceUri == c.serviceUri && Some(s.authToken) == c.authToken
      && s.delegate == c.delegate
      && s.client == ClientFor(c)
  {
  }

  /**
   * The defaults alone do not build (no token); with only a token they
   * build an unqueued synchronous service on a plain client at the default
   * URI, without proxy, timeouts or delegate.
   */
  lemma DefaultPlan(token: string)
    ensures Plan(DefaultConfig) == Failure(AuthTokenRequired)
    ensures var c := DefaultConfig.(authToken := Some(token));
      Plan(c) == Success(Built(
        Synchronous(ClientPlan(PlainClient, None, None, None), Utilities.DefaultServiceUri, token, None),
        [Synchronous(ClientPlan(PlainClient, None, None, None), Utilities.DefaultServiceUri, token, None)]))
  {
  }

  class C2DMServiceBuilder {
    var serviceUri: string
    var authToken: Option<string>
    var pooledMax: int
    var executor: Option<ExecutorRef>
    var isQueued: bool
    var proxy: Option<Proxy>
    var httpClient: Option<ClientRef>
    var timeout: int
    var delegate: Option<DelegateRef>

    /** The builder's current fields as one value. */
    function Config(): BuilderConfig
      reads this
    {
      BuilderConfig(serviceUri, authToken, pooledMax, executor, isQueued, proxy, httpClient,
                    timeout, delegate)
    }

    constructor ()
      ensures Config() == DefaultConfig
    {
      serviceUri := Utilities.DefaultServiceUri;
      authToken := None;
      pooledMax := 1;
      executor := None;
      isQueued := false;
      proxy := None;
      httpClient := None;
      timeout := -1;
      delegate := None;
    }

    method WithHttpProxy(host: string, port: int)
      modifies this
      ensures Config() == old(Config()).(proxy := Some(Proxy(host, port)))
    {
      proxy := Some(Proxy(host, port));
    }

    method WithServiceUri(uri: string)
      modifies this
      ensures Config() == old(Config()).(serviceUri := uri)
    {
      serviceUri := uri;
    }

    method WithAuthToken(token: Option<string>)
      modifies this
      ensures Config() == old(Config()).(authToken := token)
    {
      authToken := token;
    }

    method WithHttpClient(client: Option<ClientRef>)
      modifies this
      ensures Config() == old(Config()).(httpClient := client)
    {
      httpClient := client;
    }

    /**
     * asPool(maxConnections): a fixed pool of that size, which the caller
     * hands in as `newPool`; a size below 1 throws before any field changes.
     */
    method AsPool(maxConnections: int, newPool: ExecutorRef) returns (r: Outcome<PoolError>)
      modifies this
      ensures r.Fail? <==> maxConnections <= 0
      ensures Config() == if r.Fail? then old(Config())
                          else old(Config()).(pooledMax := maxConnections, executor := Some(newPool))
    {
      if maxConnections <= 0 {
        return Fail(NonPositivePoolSize);
      }
      AsPoolWith(Some(newPool), maxConnections);
      r := Pass;
    }

    /** asPool(executor, maxConnections): sets both fields. */
    method AsPoolWith(exec: Option<ExecutorRef>, maxConnections: int)
      modifies this
      ensures Config() == old(Config()).(pooledMax := maxConnections, executor := exec)
    {
      pooledMax := maxConnections;
      executor := exec;
    }

    method AsQueued()
      modifies this
      ensures Config() == old(Config()).(isQueued := true)
    {
      isQueued := true;
    }

    method Timeout(millis: int)
      modifies this
      ensures Config() == old(Config()).(timeout := millis)
    {
      timeout := millis;
    }

    method Delegate(d: Option<DelegateRef>)
      modifies this
      ensures Config() == old(Config()).(delegate := d)
    {
      delegate := d;
    }

    /** build, on the current fields; the builder itself is left unchanged. */
    method Build() returns (r: Result<Built, BuildError>)
      ensures r == Plan(Config())
    {
      r := Plan(Config());
    }
  }

  /**
   * A typical client: token, pool of four with its own executor, queued.
   * The result is one queued layer over a pooled service on a pooled
   * connection manager of four.
   */
  method BuildQueuedPool(token: string, pool: ExecutorRef) returns (r: Result<Built, BuildError>)
    ensures r.Success?
    ensures r.value.service.Queued? && r.value.service.inner.Pooled?
    ensures r.value.service.inner.executor == pool
    ensures r.value.service.inner.client.source == PooledClient(4)
  {
    var b := new C2DMServiceBuilder();
    b.WithAuthToken(Some(token));
    var p := b.AsPool(4, pool);
    b.AsQueued();
    r := b.Build();
  }
}
