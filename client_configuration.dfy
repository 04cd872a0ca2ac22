/**
 * The base (non-pooling) Lettuce client configuration and its builder, as far
 * as the pooling variant relies on them. Their Java classes are not part of this
 * model: the configuration is the record of the seven answers it gives, and the
 * builder is an object holding those seven values, whose mutators overwrite
 * the value each one names and whose `Build` takes a snapshot. No defaults and
 * no validation are claimed for them.
 */
module LettuceClient {
  import opened Wrappers

  /** A shared `ClientResources` instance, known only by its identity. */
  datatype ClientResources = ClientResources(id: nat)

  /** A `ClientOptions` instance, known only by its identity. */
  datatype ClientOptions = ClientOptions(id: nat)

  /** A `java.time.Duration`; timeouts are only passed through, never computed with. */
  type Duration = int

  /** The answers a base client configuration gives to its seven queries. */
  datatype ClientConfiguration = ClientConfiguration(
    useSsl: bool,
    verifyPeer: bool,
    startTls: bool,
    clientResources: Option<ClientResources>,
    clientOptions: Option<ClientOptions>,
    commandTimeout: Duration,
    shutdownTimeout: Duration)

  /** One call the pooling builder can forward to its base builder. */
  datatype BaseCall =
    | UseSsl
    | DisablePeerVerification
    | StartTls
    | And
    | SetClientResources(resources: ClientResources)
    | SetClientOptions(options: ClientOptions)
    | SetCommandTimeout(timeout: Duration)
    | SetShutdownTimeout(timeout: Duration)

  /** The base builder's state after it receives `call`: the named value is
      overwritten, and `And` only hands control back to the enclosing builder. */
  function Apply(s: ClientConfiguration, call: BaseCall): ClientConfiguration
  {
    match call
    case UseSsl => s.(useSsl := true)
    case DisablePeerVerification => s.(verifyPeer := false)
    case StartTls => s.(startTls := true)
    case And => s
    case SetClientResources(r) => s.(clientResources := Some(r))
    case SetClientOptions(o) => s.(clientOptions := Some(o))
    case SetCommandTimeout(d) => s.(commandTimeout := d)
    case SetShutdownTimeout(d) => s.(shutdownTimeout := d)
  }

  /** The base builder's state after it receives `calls`, first to last. */
  function ApplyAll(s: ClientConfiguration, calls: seq<BaseCall>): ClientConfiguration
    decreases |calls|
  {
    if calls == [] then s else Apply(ApplyAll(s, calls[..|calls| - 1]), calls[|calls| - 1])
  }

  /** The base builder that the pooling builder delegates to. */
  class ClientConfigurationBuilder {
    var useSsl: bool
    var verifyPeer: bool
    var startTls: bool
    var clientResources: Option<ClientResources>
    var clientOptions: Option<ClientOptions>
    var commandTimeout: Duration
    var shutdownTimeout: Duration
    /** Every call this builder has received, oldest first. */
    ghost var received: seq<BaseCall>

    /** The configuration this builder would produce now. */
    function Snapshot(): ClientConfiguration
      reads this
    {
      ClientConfiguration(useSsl, verifyPeer, startTls, clientResources, clientOptions,
                          commandTimeout, shutdownTimeout)
    }

    constructor (initial: ClientConfiguration)
      ensures Snapshot() == initial
      ensures received == []
    {
      useSsl, verifyPeer, startTls := initial.useSsl, initial.verifyPeer, initial.startTls;
      clientResources, clientOptions := initial.clientResources, initial.clientOptions;
      commandTimeout, shutdownTimeout := initial.commandTimeout, initial.shutdownTimeout;
      received := [];
    }

    method UseSsl()
      modifies this
      ensures received == old(received) + [BaseCall.UseSsl]
      ensures Snapshot() == Apply(old(Snapshot()), BaseCall.UseSsl)
    {
      useSsl := true;
      received := received + [BaseCall.UseSsl];
    }

    method DisablePeerVerification()
      modifies this
      ensures received == old(received) + [BaseCall.DisablePeerVerification]
      ensures Snapshot() == Apply(old(Snapshot()), BaseCall.DisablePeerVerification)
    {
      verifyPeer := false;
      received := received + [BaseCall.DisablePeerVerification];
    }

    method StartTls()
      modifies this
      ensures received == old(received) + [BaseCall.StartTls]
      ensures Snapshot() == Apply(old(Snapshot()), BaseCall.StartTls)
    {
      startTls := true;
      received := received + [BaseCall.StartTls];
    }

    /** Hands control back from the TLS view; the call is recorded, no value changes. */
    method And()
      modifies this
      ensures received == old(received) + [BaseCall.And]
      ensures Snapshot() == Apply(old(Snapshot()), BaseCall.And)
    {
      received := received + [BaseCall.And];
    }

    method SetClientResources(resources: ClientResources)
      modifies this
      ensures received == old(received) + [BaseCall.SetClientResources(resources)]
      ensures Snapshot() == Apply(old(Snapshot()), BaseCall.SetClientResources(resources))
    {
      clientResources := Some(resources);
      received := received + [BaseCall.SetClientResources(resources)];
    }

    method SetClientOptions(options: ClientOptions)
      modifies this
      ensures received == old(received) + [BaseCall.SetClientOptions(options)]
      ensures Snapshot() == Apply(old(Snapshot()), BaseCall.SetClientOptions(options))
    {
      clientOptions := Some(options);
      received := received + [BaseCall.SetClientOptions(options)];
    }

    method CommandTimeout(timeout: Duration)
      modifies this
      ensures received == old(received) + [BaseCall.SetCommandTimeout(timeout)]
      ensures Snapshot() == Apply(old(Snapshot()), BaseCall.SetCommandTimeout(timeout))
    {
      commandTimeout := timeout;
      received := received + [BaseCall.SetCommandTimeout(timeout)];
    }

    method ShutdownTimeout(timeout: Duration)
      modifies this
      ensures received == old(received) + [BaseCall.SetShutdownTimeout(timeout)]
      ensures Snapshot() == Apply(old(Snapshot()), BaseCall.SetShutdownTimeout(timeout))
    {
      shutdownTimeout := timeout;
      received := received + [BaseCall.SetShutdownTimeout(timeout)];
    }

    method Build() returns (c: ClientConfiguration)
      ensures c == Snapshot()
    {
      c := Snapshot();
    }
  }
}
