# ServiceTalk server filter chain and resume-on-error subscriber, in Dafny

This project models two pieces of ServiceTalk, the asynchronous networking library:

1. **The HTTP server builder's filter logic** (`DefaultHttpServerBuilder`).
   - The builder keeps two ordered filter lists that its `append*` methods extend:
     - non-offloading filters, which run on the I/O thread;
     - offloading filters.
   - A non-offloading filter that declares offloads is refused when it is registered.
   - The offloads that filters require are merged with a left fold of `merge`.
   - When the server listens, the builder decides whether an offloading boundary goes
     between the two groups.
   - The filters are folded onto the service so that the first filter appended is
     outermost.
   - The result is wrapped in the internal filters: the exception mapper innermost, then
     keep-alive, then the optional lifecycle observer.
   - The exception mapper turns every failure of the service into a 503, 415 or 500
     response with `content-length: 0`.
2. **`ResumePublisher.ResumeSubscriber`**, the subscriber behind `Publisher.onErrorResume`.
   - On the first failure it subscribes itself to one fallback source.
   - It switches the downstream's subscription to that source instead of sending a
     second `onSubscribe`.

Modules:

- `ExecutionStrategies`: a strategy is the set of offloaded stages (receive metadata,
  receive data, send).
  - `merge` is union and `hasOffloads` means non-empty.
  - `defaultStrategy()` stays a separate value, because the builder compares against it
    by identity.
- `FilterChain`: filter factories and services as terms.
  - `Layers` is the request-path order of a service's filters.
  - `Execution` is the enter/serve/leave trace of one request.
  - `Nest` is the reference right-nested composition. The `Stream.reduce` left fold in
    `buildService`/`buildFactory` is proved equal to it.
  - Also here: `checkNonOffloading`, `requiredOffloads(anything, default)` (the function
    `RequiredOrDefault`), `computeRequiredStrategy` and `applyInternalFilters`.
- `ExceptionMapping`: the exception mapper's `handle` and `newErrorResponse`.
- `ServerBuilder`: the builder as a class.
  - Its fields are the two filter lists, the strategy, the connection acceptor factory
    and the lifecycle observer.
  - Its methods append to them, and `listenForService` assembles the chain.
  - The class invariant: every registered filter is a user-level factory, and no
    non-offloading filter requires offloads.
- `Resume`: `ResumeSubscriber` as a class.
  - It has the source's two mutable fields, `nextFactory` and `sequentialSubscription`.
  - A ghost trace records everything it does: signals delivered downstream, calls on the
    sequential subscription, and sources subscribed to.
  - The class invariant states two facts: the downstream sees exactly one `onSubscribe`,
    and there is at most one fallback source while the upstream sources keep to the
    protocol.
- `Scenarios`: end-to-end client methods for concrete configurations. Each one builds a
  builder or a subscriber, calls it, and asserts the result.

## Model

| member | source | states |
|---|---|---|
| ExecutionStrategies.Merge | servicetalk-http-netty/src/main/java/io/servicetalk/http/netty/DefaultHttpServerBuilder.java:119 | the merged strategy offloads everything either strategy offloads, and it is the least such strategy; it has offloads iff one of them has |
| ExecutionStrategies.Missing | servicetalk-http-netty/src/main/java/io/servicetalk/http/netty/DefaultHttpServerBuilder.java:327 | `REQRESP_OFFLOADS.missing(strategy)` shares no offload with `strategy`; together with the part of `strategy` inside the requested set, it covers the requested set exactly |
| FilterChain.Reduce | servicetalk-http-netty/src/main/java/io/servicetalk/http/netty/DefaultHttpServerBuilder.java:109 | the identity-less reduction yields a composed factory iff there is at least one filter |
| FilterChain.ReduceNests | servicetalk-http-netty/src/main/java/io/servicetalk/http/netty/DefaultHttpServerBuilder.java:108-110 | the left fold `svc -> prev.create(filter.create(svc))` applied to a service equals f1(f2(...fn(service))) |
| FilterChain.NestLayers | servicetalk-http-netty/src/main/java/io/servicetalk/http/netty/DefaultHttpServerBuilder.java:108-111 | the request passes through the filters in append order, and then reaches the same raw service |
| FilterChain.NestExecution | servicetalk-http-netty/src/main/java/io/servicetalk/http/netty/DefaultHttpServerBuilder.java:108-111 | a request enters the filters in append order, reaches the service, then leaves the filters in reverse append order |
| FilterChain.BuildService | servicetalk-http-netty/src/main/java/io/servicetalk/http/netty/DefaultHttpServerBuilder.java:106-112 | `buildService` equals the right-nested composition with the first filter outermost; with no filters it is the service itself, with no wrapper |
| FilterChain.BuildFactory | servicetalk-http-netty/src/main/java/io/servicetalk/http/netty/DefaultHttpServerBuilder.java:100-104 | for every service, the built factory creates the right-nested composition; with no filters it creates a single pass-through layer |
| FilterChain.CheckNonOffloading | servicetalk-http-netty/src/main/java/io/servicetalk/http/netty/DefaultHttpServerBuilder.java:122-130 | fails iff the declared strategy (the assumed one for a non-influencer) has offloads; the error carries the description and that strategy; on success the argument is returned unchanged |
| FilterChain.FilterFactory.RequiredOffloads | servicetalk-http-netty/src/main/java/io/servicetalk/http/netty/DefaultHttpServerBuilder.java:438-478 | a user filter requires what it declares; a conditional factory requires what the factory it guards requires; the exception mapper, keep-alive and the other built-in filters declare `offloadNone()` and so have no offloads; any offloads a factory requires come from the user filter at the bottom of its conditions |
| FilterChain.RequiredOrDefault | servicetalk-http-netty/src/main/java/io/servicetalk/http/netty/DefaultHttpServerBuilder.java:132-139 | an execution strategy influencer's declared requirement, and the given default for anything that declares none |
| FilterChain.OffloadedService | servicetalk-http-netty/src/main/java/io/servicetalk/http/netty/DefaultHttpServerBuilder.java:330-331 | behind the offloading boundary, the request passes through the offloading filters in append order (a single pass-through layer when there are none) and then reaches the same service |
| FilterChain.ComputeRequiredStrategy | servicetalk-http-netty/src/main/java/io/servicetalk/http/netty/DefaultHttpServerBuilder.java:114-120 | the left fold of `merge` seeded with the default offloads exactly the default's offloads plus every filter's requirement, so it covers each filter's requirement; no filters gives the seed itself |
| FilterChain.ApplyInternalFilters | servicetalk-http-netty/src/main/java/io/servicetalk/http/netty/DefaultHttpServerBuilder.java:372-382 | request path: lifecycle observer (when configured), keep-alive, exception mapper, then the given service's own layers; the raw service is unchanged |
| ServerBuilder.NonOffloadingFiltersFirst | servicetalk-http-netty/src/main/java/io/servicetalk/http/netty/DefaultHttpServerBuilder.java:320-339 | whatever the strategy, the chosen chain starts with the non-offloading filters, in order |
| ServerBuilder.ChainHasNoInternalFilter | servicetalk-http-netty/src/main/java/io/servicetalk/http/netty/DefaultHttpServerBuilder.java:374-375 | a chain built from registrable filters holds neither the exception mapper nor keep-alive, so the internal ones are the only ones |
| ServerBuilder.HttpServerBuilder.constructor | servicetalk-http-netty/src/main/java/io/servicetalk/http/netty/DefaultHttpServerBuilder.java:86-98 | a new builder holds exactly the async-context-clearing filter as a non-offloading filter, no offloading filters, the default strategy, no acceptor and no observer; the invariant holds |
| ServerBuilder.HttpServerBuilder.AppendConnectionAcceptorFilter | servicetalk-http-netty/src/main/java/io/servicetalk/http/netty/DefaultHttpServerBuilder.java:147-155 | the first factory is stored as is; each later one is appended after the earlier ones; nothing else changes |
| ServerBuilder.HttpServerBuilder.AppendNonOffloadingServiceFilter | servicetalk-http-netty/src/main/java/io/servicetalk/http/netty/DefaultHttpServerBuilder.java:157-161 | throws IllegalArgument("Non-offloading filter", its requirement) iff the factory requires offloads; otherwise appends exactly that factory; when it throws, both lists are unchanged; the invariant is kept |
| ServerBuilder.HttpServerBuilder.AppendNonOffloadingServiceFilterWhen | servicetalk-http-netty/src/main/java/io/servicetalk/http/netty/DefaultHttpServerBuilder.java:163-170 | the predicate is checked first, assuming `offloadNever` for a non-influencer, then the factory; either failure throws its own description and nothing is appended; otherwise exactly the conditional factory is appended |
| ServerBuilder.HttpServerBuilder.AppendServiceFilter | servicetalk-http-netty/src/main/java/io/servicetalk/http/netty/DefaultHttpServerBuilder.java:172-177 | appends exactly the factory to the offloading filters; nothing else changes; the invariant is kept |
| ServerBuilder.HttpServerBuilder.AppendServiceFilterWhen | servicetalk-http-netty/src/main/java/io/servicetalk/http/netty/DefaultHttpServerBuilder.java:179-184 | appends exactly the conditional factory to the offloading filters; nothing else changes |
| ServerBuilder.HttpServerBuilder.SetExecutionStrategy | servicetalk-http-netty/src/main/java/io/servicetalk/http/netty/DefaultHttpServerBuilder.java:247-251 | replaces the strategy; nothing else changes |
| ServerBuilder.HttpServerBuilder.SetLifecycleObserver | servicetalk-http-netty/src/main/java/io/servicetalk/http/netty/DefaultHttpServerBuilder.java:229-233 | stores the observer; nothing else changes |
| ServerBuilder.HttpServerBuilder.ComputeServiceStrategy | servicetalk-http-netty/src/main/java/io/servicetalk/http/netty/DefaultHttpServerBuilder.java:366-370 | the filter strategy when the configured one is the default, otherwise the configured one merged with it; its offloads are the configured strategy's (if not the default), the service's requirement and every offloading filter's requirement; a service that declares nothing is fully offloaded |
| ServerBuilder.HttpServerBuilder.ListenForService | servicetalk-http-netty/src/main/java/io/servicetalk/http/netty/DefaultHttpServerBuilder.java:312-339 | the service's layers are the chain for the two lists and strategy, followed by the raw service's own layers; with both lists empty the raw service is used unwrapped; the context strategy is `REQRESP_OFFLOADS.missing(strategy)` exactly when the boundary is inserted, otherwise the strategy itself |
| ServerBuilder.HttpServerBuilder.ListenStreaming | servicetalk-http-netty/src/main/java/io/servicetalk/http/netty/DefaultHttpServerBuilder.java:270-273 | the bound service is the internal filters around the chain chosen for the configured strategy; the exception mapper and keep-alive each occur exactly once; the raw service is the one given |
| ExceptionMapping.NewErrorResponse | servicetalk-http-netty/src/main/java/io/servicetalk/http/netty/DefaultHttpServerBuilder.java:415-436 | 503 iff the cause is a rejected execution, 415 iff it is a serialization failure, 500 iff it is anything else; the only header is `content-length: 0` |
| ExceptionMapping.Handle | servicetalk-http-netty/src/main/java/io/servicetalk/http/netty/DefaultHttpServerBuilder.java:401-411 | the mapper always answers: the delegate's response when it succeeds, otherwise the error response for the failure, whether it was thrown or delivered |
| ExceptionMapping.SyncAndAsyncFailuresMapAlike | servicetalk-http-netty/src/main/java/io/servicetalk/http/netty/DefaultHttpServerBuilder.java:405-410 | a failure thrown synchronously by the delegate gets the same response as the same failure delivered through the returned single |
| Resume.AddSuppressed | src/main/java/io/servicetalk/concurrent/api/ResumePublisher.java:91 | `addSuppressed` succeeds iff the exception is a different object; on success only the suppressed list grows, by that exception; otherwise it throws IllegalArgumentException |
| Resume.CatchFactoryFailureAsWritten | src/main/java/io/servicetalk/concurrent/api/ResumePublisher.java:90-93 | the catch block delivers the factory's failure with the original appended as suppressed iff the two are different objects |
| Resume.RethrowingFactoryEscapes | src/main/java/io/servicetalk/concurrent/api/ResumePublisher.java:90-93 | when the factory rethrows the failure it was given, the catch block itself throws IllegalArgumentException and nothing is delivered |
| Resume.CatchFactoryFailure | src/main/java/io/servicetalk/concurrent/api/ResumePublisher.java:90-93 | the downstream always receives the factory's failure; the original is its last suppressed cause unless they are the same object; agrees with the catch block as written whenever that delivers |
| Resume.ResumeSubscriber.constructor | src/main/java/io/servicetalk/concurrent/api/ResumePublisher.java:53-56 | a new subscriber holds the factory, no subscription and an empty trace; the invariant holds |
| Resume.ResumeSubscriber.SubscribeTo | src/main/java/io/servicetalk/concurrent/api/ResumePublisher.java:95 | subscribing appends one source subscription to the trace; the invariant is kept, including "at most two sources" while the protocol is followed |
| Resume.ResumeSubscriber.OnSubscribe | src/main/java/io/servicetalk/concurrent/api/ResumePublisher.java:58-69 | the first call creates a sequential subscription from `s` and delivers it downstream; any later call drops the factory, switches the same subscription to `s` and delivers nothing; the downstream sees exactly one `onSubscribe` |
| Resume.ResumeSubscriber.HandDownstream | src/main/java/io/servicetalk/concurrent/api/ResumePublisher.java:60-63 | a fresh subscription wrapping `s`, with no calls made on it, is the one delivered downstream; the factory is kept |
| Resume.ResumeSubscriber.SwitchUpstream | src/main/java/io/servicetalk/concurrent/api/ResumePublisher.java:64-68 | the factory becomes absent and the subscription records exactly one `switchTo(s)`; the trace grows by that call only |
| Resume.ResumeSubscriber.OnNext | src/main/java/io/servicetalk/concurrent/api/ResumePublisher.java:71-77 | with a subscription present, `itemReceived` is recorded on it before the item is delivered downstream; the fields are unchanged |
| Resume.ResumeSubscriber.OnError | src/main/java/io/servicetalk/concurrent/api/ResumePublisher.java:79-96 | without a factory the error goes downstream unchanged; a factory that throws or returns null has that failure delivered, with the original suppressed when it is a different object (the corrected catch block, see Findings), and no resubscription; a returned source is subscribed to and downstream sees nothing; the invariant, including at most one fallback, is kept |
| Resume.ResumeSubscriber.OnComplete | src/main/java/io/servicetalk/concurrent/api/ResumePublisher.java:98-101 | completion is delivered downstream with no change to the fields |
| Resume.HandleSubscribe | src/main/java/io/servicetalk/concurrent/api/ResumePublisher.java:41-44 | a fresh subscriber holding the factory has subscribed to the first source and done nothing else |

## Left out

- `doBind` is left out: the Netty, HTTP/2 and ALPN/SNI binders and the bind itself are transport I/O. `ListenStreaming` stops at the service that would be bound, after `applyInternalFilters`.
- The `drainRequestPayloadBody`, `protocols`, TLS, socket option, wire logging, transport observer, executor, I/O executor and buffer allocator setters are left out. They only store configuration that this model never reads.
- `listen`, `listenBlocking` and `listenBlockingStreaming` are modelled only through `ComputeServiceStrategy`. The adapters that turn a service into a streaming one are not shown.
- Logging in `newErrorResponse` and after a successful bind is left out.
- `SequentialSubscription` is not shown. The model only records the `switchTo`, `itemReceived` and `request` calls made on it.
- The internals of several filters are not shown, so their request handling is not modelled; each appears as a named layer:
  - `OffloadingFilter`: its `shouldOffload` supplier and the hand-off to another executor;
  - `HttpKeepAlive`;
  - the lifecycle observer filter.
- `HttpExecutionStrategy.merge`, `missing` and `isRequestResponseOffloaded` are modelled as set operations on the offloaded stages: union, difference and a non-empty intersection.
- `defaultStrategy()` is modelled as offloading all three stages. Merging with it gives a custom strategy with the union of the stages.
- `FilterChain.FilterFactory.RequiredOffloads`: `toConditionalServiceFilterFactory` is not shown. A conditional factory is assumed to require what the factory it guards requires.
- The clear-async-context filter, the internal filters and the offloading boundary are modelled as requiring no offloads.
- `ServerBuilder.HttpServerBuilder.AppendNonOffloadingServiceFilter`, `AppendServiceFilter` and their conditional forms require a registrable factory: a user filter, a conditional one, or the async-context filter. Java callers cannot reach the private internal filter classes, and the `requireNonNull` checks have no counterpart because the model has no null.
- `ConnectionAcceptorFactory.append` is modelled as keeping the factories in append order. The acceptor's strategy influence is not modelled.
- `Resume.ResumeSubscriber.OnError`: "at most one fallback" is proved only while every source calls `onSubscribe` before `onError`. An `onError` that arrives before its own source's `onSubscribe` finds the factory still present and may fall back again. The model marks that run as outside the protocol rather than bounding it.
- `Resume.ResumeSubscriber.OnError` follows the corrected catch block `Resume.CatchFactoryFailure` (see Findings), not the one as written: when the factory rethrows the very failure it was given, the model delivers that failure downstream, whereas the code as written throws IllegalArgumentException out of `onError` and delivers nothing; `Resume.CatchFactoryFailureAsWritten` and `Resume.RethrowingFactoryEscapes` model that behaviour.
- `Resume.ResumeSubscriber.OnError` requires that a `NullPointerException` raised for a null fallback is a different object from the failure being handled, which holds for a freshly created exception.
- `volatile` visibility and concurrent calls of the handlers are left out. Handlers are modelled as sequential calls.
- Throwables are modelled by identity, class and suppressed list only. Stack traces and messages are left out.

## Findings

| source | as written | input that shows it | evidently intended | confidence | as-written member | corrected member |
|---|---|---|---|---|---|---|
| src/main/java/io/servicetalk/concurrent/api/ResumePublisher.java:90-93 | the catch block calls `throwable.addSuppressed(t)` unconditionally | a resume function that rethrows the runtime exception it receives (`t -> { throw (RuntimeException) t; }` for a RuntimeException `t`): `addSuppressed` is called with the same object and throws IllegalArgumentException out of `onError` before the downstream's `onError` is called; whether the downstream ever terminates then depends on what the upstream source does with that exception | deliver the factory's failure, and suppress `t` in it only when they are different objects | not executed | Resume.CatchFactoryFailureAsWritten | Resume.CatchFactoryFailure |
