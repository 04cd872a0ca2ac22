/**
 * The pooling variant of the Lettuce client configuration
 * (`DefaultLettucePoolingClientConfiguration`) and its fluent builder.
 *
 * The configuration is an immutable decorator: it wraps a base configuration
 * and a pool configuration, answers "pooling is on", hands out the pool
 * configuration it was given and forwards every other query unchanged.
 *
 * The builder forwards every base mutator to a fixed base builder, keeps the
 * pool configuration itself, and on `Build` wraps a snapshot of the base
 * builder together with the pool configuration it holds at that moment.
 */
module LettucePooling {
  import opened Wrappers
  import opened LettuceClient

  /** A commons-pool `GenericObjectPoolConfig`, known only by its identity. */
  datatype PoolConfig = PoolConfig(id: nat)

  /** The decorator: both fields are final, so a value of this type never changes.
      `poolConfig` is `None` when the builder never received one (a Java `null`). */
  datatype PoolingClientConfiguration = PoolingClientConfiguration(
    clientConfiguration: ClientConfiguration,
    poolConfig: Option<PoolConfig>)
  {
    function IsUsePooling(): bool { true }

    function IsUseSsl(): bool { clientConfiguration.useSsl }

    function IsVerifyPeer(): bool { clientConfiguration.verifyPeer }

    function IsStartTls(): bool { clientConfiguration.startTls }

    function GetClientResources(): Option<ClientResources> { clientConfiguration.clientResources }

    function GetClientOptions(): Option<ClientOptions> { clientConfiguration.clientOptions }

    function GetCommandTimeout(): Duration { clientConfiguration.commandTimeout }

    function GetShutdownTimeout(): Duration { clientConfiguration.shutdownTimeout }

    function GetPoolConfig(): Option<PoolConfig> { poolConfig }
  }

  /** Pooling is reported as enabled whatever is wrapped, even with no pool configuration. */
  lemma UsePoolingAlways(c: ClientConfiguration, p: Option<PoolConfig>)
    ensures PoolingClientConfiguration(c, p).IsUsePooling()
  {
  }

  /** Wrapping a configuration does not change any of its seven answers. */
  lemma DecoratorTransparency(c: ClientConfiguration, p: Option<PoolConfig>)
    ensures var w := PoolingClientConfiguration(c, p);
      && w.IsUseSsl() == c.useSsl
      && w.IsVerifyPeer() == c.verifyPeer
      && w.IsStartTls() == c.startTls
      && w.GetClientResources() == c.clientResources
      && w.GetClientOptions() == c.clientOptions
      && w.GetCommandTimeout() == c.commandTimeout
      && w.GetShutdownTimeout() == c.shutdownTimeout
  {
  }

  /** The pool configuration handed out is the one the decorator was built with. */
  lemma PoolConfigAsGiven(c: ClientConfiguration, p: Option<PoolConfig>)
    ensures PoolingClientConfiguration(c, p).GetPoolConfig() == p
  {
  }

  // ---------------------------------------------------------------------------
  // The builder as a value: the state it holds and the calls it accepts.

  /** A call on the pooling builder: one that it forwards to its base builder,
      or `withConnectionPooling`, which it handles itself. */
  datatype BuilderCall =
    | Delegated(call: BaseCall)
    | WithConnectionPooling(pool: Option<PoolConfig>)

  /** What the pooling builder's behaviour depends on: the values held by its
      base builder, the calls that base builder has received so far, and the
      pooling builder's own pool configuration. */
  datatype BuilderState = BuilderState(
    delegate: ClientConfiguration,
    received: seq<BaseCall>,
    poolConfig: Option<PoolConfig>)

  /** The state after one call: a forwarded call reaches the base builder once,
      unchanged; `withConnectionPooling` only replaces the pool configuration. */
  function Step(s: BuilderState, call: BuilderCall): BuilderState
  {
    match call
    case Delegated(c) => s.(delegate := Apply(s.delegate, c), received := s.received + [c])
    case WithConnectionPooling(p) => s.(poolConfig := p)
  }

  /** The state after a chain of calls, first to last. */
  function Run(s: BuilderState, calls: seq<BuilderCall>): BuilderState
    decreases |calls|
  {
    if calls == [] then s else Step(Run(s, calls[..|calls| - 1]), calls[|calls| - 1])
  }

  /** The configuration `build()` produces from a state. */
  function BuildFrom(s: BuilderState): PoolingClientConfiguration
  {
    PoolingClientConfiguration(s.delegate, s.poolConfig)
  }

  /** The calls of a chain that reach the base builder, in order. */
  function DelegatedCalls(calls: seq<BuilderCall>): seq<BaseCall>
    decreases |calls|
  {
    if calls == [] then []
    else
      var last := calls[|calls| - 1];
      DelegatedCalls(calls[..|calls| - 1]) + if last.Delegated? then [last.call] else []
  }

  /** A chain without `withConnectionPooling` leaves the pool configuration as it was. */
  lemma {:induction false} PoolConfigUntouched(s: BuilderState, calls: seq<BuilderCall>)
    requires forall k :: 0 <= k < |calls| ==> calls[k].Delegated?
    ensures Run(s, calls).poolConfig == s.poolConfig
  {
    if calls != [] {
      PoolConfigUntouched(s, calls[..|calls| - 1]);
    }
  }

  /** Last write wins: the pool configuration after a chain is the argument of
      its last `withConnectionPooling` call. */
  lemma {:induction false} PoolConfigLastWriteWins(s: BuilderState, calls: seq<BuilderCall>, k: nat)
    requires k < |calls| && calls[k].WithConnectionPooling?
    requires forall j :: k < j < |calls| ==> calls[j].Delegated?
    ensures Run(s, calls).poolConfig == calls[k].pool
  {
    if k < |calls| - 1 {
      PoolConfigLastWriteWins(s, calls[..|calls| - 1], k);
    }
  }

  /** The base builder receives exactly the forwarded calls of a chain, each
      once, in order and with its argument unchanged, and ends in the state of
      having received them; `withConnectionPooling` never reaches it. */
  lemma {:induction false} DelegateSeesForwardedCalls(s: BuilderState, calls: seq<BuilderCall>)
    ensures Run(s, calls).received == s.received + DelegatedCalls(calls)
    ensures Run(s, calls).delegate == ApplyAll(s.delegate, DelegatedCalls(calls))
  {
    if calls != [] {
      var prefix, last := calls[..|calls| - 1], calls[|calls| - 1];
      DelegateSeesForwardedCalls(s, prefix);
      var before := DelegatedCalls(prefix);
      if last.Delegated? {
        assert (before + [last.call])[..|before|] == before;
        assert s.received + before + [last.call] == s.received + (before + [last.call]);
      } else {
        assert before + [] == before;
      }
    }
  }

  /** `build()` after any chain: pooling on, the base answers of the base
      builder after the forwarded calls, and the last pool configuration given
      (or the one held before the chain, if none was). */
  lemma {:induction false} BuildAfterChain(s: BuilderState, calls: seq<BuilderCall>)
    ensures BuildFrom(Run(s, calls)).IsUsePooling()
    ensures BuildFrom(Run(s, calls)).clientConfiguration == ApplyAll(s.delegate, DelegatedCalls(calls))
    ensures (forall k :: 0 <= k < |calls| ==> calls[k].Delegated?) ==>
      BuildFrom(Run(s, calls)).GetPoolConfig() == s.poolConfig
    ensures forall k ::
      (0 <= k < |calls| && calls[k].WithConnectionPooling? &&
       forall j :: k < j < |calls| ==> calls[j].Delegated?) ==>
      BuildFrom(Run(s, calls)).GetPoolConfig() == calls[k].pool
  {
    DelegateSeesForwardedCalls(s, calls);
    if forall k :: 0 <= k < |calls| ==> calls[k].Delegated? {
      PoolConfigUntouched(s, calls);
    }
    forall k | 0 <= k < |calls| && calls[k].WithConnectionPooling?
      && (forall j :: k < j < |calls| ==> calls[j].Delegated?)
      ensures BuildFrom(Run(s, calls)).GetPoolConfig() == calls[k].pool
    {
      PoolConfigLastWriteWins(s, calls, k);
    }
  }

  // ---------------------------------------------------------------------------
  // The builder as an object.

  /** `DefaultLettucePoolingClientConfigurationBuilder`. */
  class PoolingClientConfigurationBuilder {
    /** The base builder; final, so every call goes to the same object. */
    const delegate: ClientConfigurationBuilder
    var poolConfig: Option<PoolConfig>

    /** The abstract state: the base builder's values and received calls, and
        the pool configuration. */
    ghost function State(): BuilderState
      reads this, delegate
    {
      BuilderState(delegate.Snapshot(), delegate.received, poolConfig)
    }

    constructor (delegate: ClientConfigurationBuilder)
      ensures this.delegate == delegate
      ensures poolConfig == None
    {
      this.delegate := delegate;
      poolConfig := None;
    }

    method UseSsl() returns (r: PoolingClientConfigurationBuilder)
      modifies delegate
      ensures r == this
      ensures poolConfig == old(poolConfig)
      ensures delegate.received == old(delegate.received) + [BaseCall.UseSsl]
      ensures State() == Step(old(State()), Delegated(BaseCall.UseSsl))
    {
      delegate.UseSsl();
      r := this;
    }

    method SetClientResources(resources: ClientResources) returns (r: PoolingClientConfigurationBuilder)
      modifies delegate
      ensures r == this
      ensures poolConfig == old(poolConfig)
      ensures delegate.received == old(delegate.received) + [BaseCall.SetClientResources(resources)]
      ensures State() == Step(old(State()), Delegated(BaseCall.SetClientResources(resources)))
    {
      delegate.SetClientResources(resources);
      r := this;
    }

    method SetClientOptions(options: ClientOptions) returns (r: PoolingClientConfigurationBuilder)
      modifies delegate
      ensures r == this
      ensures poolConfig == old(poolConfig)
      ensures delegate.received == old(delegate.received) + [BaseCall.SetClientOptions(options)]
      ensures State() == Step(old(State()), Delegated(BaseCall.SetClientOptions(options)))
    {
      delegate.SetClientOptions(options);
      r := this;
    }

    method CommandTimeout(timeout: Duration) returns (r: PoolingClientConfigurationBuilder)
      modifies delegate
      ensures r == this
      ensures poolConfig == old(poolConfig)
      ensures delegate.received == old(delegate.received) + [SetCommandTimeout(timeout)]
      ensures State() == Step(old(State()), Delegated(SetCommandTimeout(timeout)))
    {
      delegate.CommandTimeout(timeout);
      r := this;
    }

    method ShutdownTimeout(timeout: Duration) returns (r: PoolingClientConfigurationBuilder)
      modifies delegate
      ensures r == this
      ensures poolConfig == old(poolConfig)
      ensures delegate.received == old(delegate.received) + [SetShutdownTimeout(timeout)]
      ensures State() == Step(old(State()), Delegated(SetShutdownTimeout(timeout)))
    {
      delegate.ShutdownTimeout(timeout);
      r := this;
    }

    method WithConnectionPooling(pool: Option<PoolConfig>) returns (r: PoolingClientConfigurationBuilder)
      modifies this
      ensures r == this
      ensures poolConfig == pool
      ensures delegate.received == old(delegate.received)
      ensures State() == Step(old(State()), BuilderCall.WithConnectionPooling(pool))
    {
      poolConfig := pool;
      r := this;
    }

    method DisablePeerVerification() returns (r: PoolingClientConfigurationBuilder)
      modifies delegate
      ensures r == this
      ensures poolConfig == old(poolConfig)
      ensures delegate.received == old(delegate.received) + [BaseCall.DisablePeerVerification]
      ensures State() == Step(old(State()), Delegated(BaseCall.DisablePeerVerification))
    {
      delegate.DisablePeerVerification();
      r := this;
    }

    method StartTls() returns (r: PoolingClientConfigurationBuilder)
      modifies delegate
      ensures r == this
      ensures poolConfig == old(poolConfig)
      ensures delegate.received == old(delegate.received) + [BaseCall.StartTls]
      ensures State() == Step(old(State()), Delegated(BaseCall.StartTls))
    {
      delegate.StartTls();
      r := this;
    }

    /** Leaves the TLS view: forwards `and()`, which changes no value, and
        returns the same builder. */
    method And() returns (r: PoolingClientConfigurationBuilder)
      modifies delegate
      ensures r == this
      ensures poolConfig == old(poolConfig)
      ensures delegate.received == old(delegate.received) + [BaseCall.And]
      ensures State() == Step(old(State()), Delegated(BaseCall.And))
    {
      delegate.And();
      r := this;
    }

    /** Wraps a snapshot of the base builder and the current pool configuration,
        which may be unset; nothing is changed, so the builder can be reused. */
    method Build() returns (c: PoolingClientConfiguration)
      ensures c.IsUsePooling()
      ensures c.GetPoolConfig() == poolConfig
      ensures c.clientConfiguration == delegate.Snapshot()
      ensures c == BuildFrom(State())
    {
      var base := delegate.Build();
      c := PoolingClientConfiguration(base, poolConfig);
    }
  }
}
