# Lettuce pooling client configuration, modelled in Dafny

This project models the pooling variant of Spring Data Redis's Lettuce client
configuration, `DefaultLettucePoolingClientConfiguration`, and its nested builder,
`DefaultLettucePoolingClientConfigurationBuilder`.

- **The configuration** is an immutable decorator. It wraps a base client
  configuration and a commons-pool `GenericObjectPoolConfig`. It always reports
  that pooling is on, and it returns the pool configuration it was given. Every
  other query (SSL, peer verification, STARTTLS, client resources, client options,
  command timeout, shutdown timeout) is answered by the wrapped configuration.
  In Dafny this is the datatype `LettucePooling.PoolingClientConfiguration`, with
  one member function per query.
- **The builder** is a mutable object with a final reference to a base builder
  and a mutable pool-configuration field. Every base mutator makes one call on
  the base builder and returns the same builder. `withConnectionPooling`
  overwrites the pool field. `build()` wraps the base builder's `build()` and the
  current pool field in a new decorator. In Dafny this is the class
  `LettucePooling.PoolingClientConfigurationBuilder`. Its `delegate` is a `const`
  field and its `poolConfig` is a `var`.
- **The builder as a value.** `BuilderState` holds the base builder's values,
  the calls the base builder has received so far (a ghost log kept by the base
  builder), and the pool field. `Step` gives the state after one call and `Run`
  the state after a chain of calls. Each builder method's contract says that its
  new `State()` is `Step` of the old state with that call. A chain of method
  calls on the object therefore ends in `Run` of the chain by composing those
  per-method contracts, call after call; no member states that composition on
  its own, and the lemmas about `Run` are stated on the value.

The base configuration and base builder (`DefaultLettuceClientConfiguration` and
its builder) are not part of this model. Module `LettuceClient` stands in for
them:

- `ClientConfiguration` is the record of the seven answers.
- `ClientConfigurationBuilder` is an object holding those seven values and a
  ghost log, `received`, of every call it has been given.
- Each base mutator overwrites the one value it names, and `and()` changes no
  value (`Apply`, `ApplyAll`); every one of them appends itself to `received`.
- Its `Build` takes a snapshot.

No defaults or validation are assumed for the base builder. All properties of the
pooling builder are stated relative to the base builder's state.

The opaque library types `ClientResources`, `ClientOptions` and
`GenericObjectPoolConfig` are modelled as identity-only handles. `Duration` is an
integer, because timeouts are only passed through. A Java `null` pool
configuration is `None`.

`build()` does not require a pool configuration: an unset one (the `null` field
at `DefaultLettucePoolingClientConfiguration.java:101`, passed on at `:170`) is
carried as `None`, and `build()` always succeeds. The pooling builder forwards
timeouts without checking them (`:125-134`), so no timeout is rejected here.

## Model

| member | source | states |
|---|---|---|
| `LettucePooling.UsePoolingAlways` | src/main/java/org/springframework/data/redis/connection/lettuce/DefaultLettucePoolingClientConfiguration.java:54-56 | the decorator reports pooling enabled for every wrapped configuration and every pool configuration, including an unset one |
| `LettucePooling.DecoratorTransparency` | src/main/java/org/springframework/data/redis/connection/lettuce/DefaultLettucePoolingClientConfiguration.java:36-86 | each of the seven non-pooling queries of the decorator equals the wrapped configuration's answer |
| `LettucePooling.PoolConfigAsGiven` | src/main/java/org/springframework/data/redis/connection/lettuce/DefaultLettucePoolingClientConfiguration.java:93-95 | `getPoolConfig` returns exactly the pool value the decorator was constructed with |
| `LettucePooling.PoolConfigUntouched` | src/main/java/org/springframework/data/redis/connection/lettuce/DefaultLettucePoolingClientConfiguration.java:107-162 | a chain made only of forwarded mutators leaves the builder's pool configuration as it was |
| `LettucePooling.PoolConfigLastWriteWins` | src/main/java/org/springframework/data/redis/connection/lettuce/DefaultLettucePoolingClientConfiguration.java:137-141 | after any chain, the pool configuration is the argument of the last `withConnectionPooling` call, whatever forwarded calls follow it |
| `LettucePooling.DelegateSeesForwardedCalls` | src/main/java/org/springframework/data/redis/connection/lettuce/DefaultLettucePoolingClientConfiguration.java:107-162 | after any chain, the base builder's log of received calls has grown by exactly the forwarded calls, each once, in order and with unchanged arguments, and its values are those of having received them; `withConnectionPooling` never reaches it |
| `LettucePooling.BuildAfterChain` | src/main/java/org/springframework/data/redis/connection/lettuce/DefaultLettucePoolingClientConfiguration.java:169-171 | `build()` after any chain reports pooling on. Its base answers are those of the base builder after the forwarded calls. Its pool configuration is the last one given, or the earlier one if none was given |
| `LettucePooling.PoolingClientConfigurationBuilder.constructor` | src/main/java/org/springframework/data/redis/connection/lettuce/DefaultLettucePoolingClientConfiguration.java:100-105 | the builder keeps the given base builder in a final field and starts with no pool configuration |
| `LettucePooling.PoolingClientConfigurationBuilder.UseSsl` | src/main/java/org/springframework/data/redis/connection/lettuce/DefaultLettucePoolingClientConfiguration.java:107-111 | makes exactly one `useSsl` call on the base builder (its log grows by that call), leaves the pool configuration unchanged and returns the same builder |
| `LettucePooling.PoolingClientConfigurationBuilder.SetClientResources` | src/main/java/org/springframework/data/redis/connection/lettuce/DefaultLettucePoolingClientConfiguration.java:113-117 | makes exactly one `clientResources` call on the base builder with the same handle, leaves the pool configuration unchanged and returns the same builder |
| `LettucePooling.PoolingClientConfigurationBuilder.SetClientOptions` | src/main/java/org/springframework/data/redis/connection/lettuce/DefaultLettucePoolingClientConfiguration.java:119-123 | makes exactly one `clientOptions` call on the base builder with the same handle, leaves the pool configuration unchanged and returns the same builder |
| `LettucePooling.PoolingClientConfigurationBuilder.CommandTimeout` | src/main/java/org/springframework/data/redis/connection/lettuce/DefaultLettucePoolingClientConfiguration.java:125-129 | makes exactly one `commandTimeout` call on the base builder with the same duration, leaves the pool configuration unchanged and returns the same builder |
| `LettucePooling.PoolingClientConfigurationBuilder.ShutdownTimeout` | src/main/java/org/springframework/data/redis/connection/lettuce/DefaultLettucePoolingClientConfiguration.java:131-134 | makes exactly one `shutdownTimeout` call on the base builder with the same duration, leaves the pool configuration unchanged and returns the same builder |
| `LettucePooling.PoolingClientConfigurationBuilder.WithConnectionPooling` | src/main/java/org/springframework/data/redis/connection/lettuce/DefaultLettucePoolingClientConfiguration.java:137-141 | overwrites the pool configuration with the argument, makes no call on the base builder and leaves it untouched, and returns the same builder |
| `LettucePooling.PoolingClientConfigurationBuilder.DisablePeerVerification` | src/main/java/org/springframework/data/redis/connection/lettuce/DefaultLettucePoolingClientConfiguration.java:144-148 | makes exactly one `disablePeerVerification` call on the base builder, leaves the pool configuration unchanged and returns the same builder |
| `LettucePooling.PoolingClientConfigurationBuilder.StartTls` | src/main/java/org/springframework/data/redis/connection/lettuce/DefaultLettucePoolingClientConfiguration.java:151-155 | makes exactly one `startTls` call on the base builder, leaves the pool configuration unchanged and returns the same builder |
| `LettucePooling.PoolingClientConfigurationBuilder.And` | src/main/java/org/springframework/data/redis/connection/lettuce/DefaultLettucePoolingClientConfiguration.java:158-162 | makes exactly one `and` call on the base builder, which changes none of its values, leaves the pool configuration unchanged and returns the same builder |
| `LettucePooling.PoolingClientConfigurationBuilder.Build` | src/main/java/org/springframework/data/redis/connection/lettuce/DefaultLettucePoolingClientConfiguration.java:169-171 | returns a pooling configuration that wraps the base builder's snapshot and the current pool configuration, which may be unset. It changes nothing, so the builder stays reusable and a second `build()` gives an equal configuration |

## Left out

- The base builder's own code, defaults and null checks: its class is not part of this model. Its mutators are given the overwrite effect their names state, and `and()` is given no effect.
- The internals of `ClientResources`, `ClientOptions` and `GenericObjectPoolConfig`: this code only stores and passes them on, so they are identity-only handles.
- `java.time.Duration` arithmetic and range: timeouts are passed through, so they are unbounded integers.
- Null arguments to the forwarded mutators: how the base builder treats them is not visible here. The handles are non-null in the model. `withConnectionPooling` does accept an absent value, as the Java field does.
- The fluent return types (SSL sub-builder view versus pooling builder): every method returns the same object, and the model returns that object.
- Object identity of built configurations: `build()` returns a value, so two builds are equal rather than distinct-but-equal objects.
- Thread safety: the code does not address it.
