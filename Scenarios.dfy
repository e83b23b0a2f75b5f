/**
 * Clients that replay end-to-end situations against the contracts alone:
 * what a caller can conclude about the chain, the error responses and the resume protocol.
 */
module Scenarios {
  import opened Wrappers
  import opened ExecutionStrategies
  import opened FilterChain
  import opened ExceptionMapping
  import opened ServerBuilder
  import opened Resume

  /** Two filters A then B: the request enters A then B, the response leaves B then A. */
  method AppendOrderIsRequestOrder(a: FilterFactory, b: FilterFactory, service: nat)
  {
    var built := BuildService([a, b], Raw(service));
    NestExecution([a, b], Raw(service));
    assert Execution(built) == [Enter(a), Enter(b), Serve(service), Leave(b), Leave(a)];
  }

  /**
   * A service offloading receive and send, one non-offloading filter and one offloading filter:
   * observer-less internal filters, the async-context filter, the non-offloading filter, then one
   * boundary that holds the offloading filter, then the service.
   */
  method OffloadedChain(service: nat)
  {
    var builder := new HttpServerBuilder();
    var fast := UserFilter(1, NoOffloads);
    var slow := UserFilter(2, Custom({OffloadReceiveData, OffloadSend}));
    assert !HasOffloads(fast.RequiredOffloads());
    var thrown := builder.AppendNonOffloadingServiceFilter(fast);
    builder.AppendServiceFilter(slow);
    var strategy := Custom({OffloadReceiveMetadata, OffloadReceiveData, OffloadSend});
    builder.SetExecutionStrategy(strategy);
    ListenOffloaded(builder, fast, slow, strategy, service);
  }

  /** The listening half of the scenario above, once the builder holds its configuration. */
  method ListenOffloaded(builder: HttpServerBuilder, fast: FilterFactory, slow: FilterFactory,
                         strategy: ExecutionStrategy, service: nat)
    requires builder.Valid() && builder.lifecycleObserver.None?
    requires builder.noOffloadServiceFilters == [ClearAsyncContext, fast]
    requires builder.serviceFilters == [slow]
    requires builder.strategy == strategy == Custom({OffloadReceiveMetadata, OffloadReceiveData, OffloadSend})
  {
    assert OffloadSend in Offloads(strategy) * RequestResponseOffloads;
    assert IsRequestResponseOffloaded(strategy);
    var chain := [ClearAsyncContext, fast, Offloading(strategy, [slow])];
    assert ChainFor(builder.noOffloadServiceFilters, builder.serviceFilters, strategy) == chain;
    assert InternalLayers(builder.lifecycleObserver) == [KeepAlive, ExceptionMapper];
    var bound, contextStrategy, acceptor := builder.ListenStreaming(service);
    assert Layers(bound) == [KeepAlive, ExceptionMapper] + chain;
    assert contextStrategy == Missing(RequestResponseOffloads, strategy);
    assert Offloads(contextStrategy) == {};
  }

  /** A filter that needs offloading cannot be registered as non-offloading, and nothing changes. */
  method OffloadingFilterRefused()
  {
    var builder := new HttpServerBuilder();
    var blocking := UserFilter(7, Custom({OffloadSend}));
    var thrown := builder.AppendNonOffloadingServiceFilter(blocking);
    assert thrown == Some(ConfigError.IllegalArgument("Non-offloading filter", Custom({OffloadSend})));
    assert builder.noOffloadServiceFilters == [ClearAsyncContext];
  }

  /** A rejected task thrown synchronously becomes 503 with an empty declared body. */
  method RejectedTaskAnswers503()
  {
    var response := Handle(Threw(RejectedExecution));
    assert response.status.code == 503 && response.headers[CONTENT_LENGTH] == ZERO;
  }

  /**
   * The first source fails once and the fallback is subscribed; the downstream saw one
   * `onSubscribe`, the subscription switched once, and a second failure goes straight downstream.
   */
  method FallbackOnce(first: PublisherId, fallback: PublisherId, factory: FactoryId,
                      s1: SubscriptionId, s2: SubscriptionId, e1: Throwable, e2: Throwable)
  {
    var subscriber := HandleSubscribe<int>(first, factory);
    subscriber.OnSubscribe(s1);
    var downstreamSubscription := subscriber.sequentialSubscription;
    subscriber.OnError(e1, Returns(fallback));
    subscriber.OnSubscribe(s2);
    assert subscriber.nextFactory.None?;
    subscriber.OnError(e2, Throws(e1));
    assert subscriber.trace == [Subscribe(first), Deliver(Signal.OnSubscribe(downstreamSubscription)),
                                Subscribe(fallback), Call(SubscriptionCall.SwitchTo(s2)), Deliver(Signal.OnError(e2))];
    assert downstreamSubscription.calls == [SubscriptionCall.SwitchTo(s2)];
    assert DownstreamSubscribes(subscriber.trace) == 1;
  }

  /** When the factory throws, the downstream gets that failure with the original one suppressed. */
  method FactoryThrows(first: PublisherId, factory: FactoryId, s: SubscriptionId, original: Throwable, thrown: Throwable)
    requires original.identity != thrown.identity
  {
    var subscriber := HandleSubscribe<int>(first, factory);
    subscriber.OnSubscribe(s);
    subscriber.OnError(original, Throws(thrown));
    var delivered := subscriber.trace[|subscriber.trace| - 1].signal.error;
    assert delivered.identity == thrown.identity && delivered.suppressed == thrown.suppressed + [original];
  }

  /**
   * The factory is dropped at the second upstream `onSubscribe`, not at the fallback: a fallback
   * source that fails before calling `onSubscribe` leaves the factory in place for another fallback.
   */
  method EarlyFailureAllowsSecondFallback(first: PublisherId, fallback1: PublisherId, fallback2: PublisherId,
                                          factory: FactoryId, s: SubscriptionId, e1: Throwable, e2: Throwable)
  {
    var subscriber := HandleSubscribe<int>(first, factory);
    subscriber.OnSubscribe(s);
    subscriber.OnError(e1, Returns(fallback1));
    subscriber.OnError(e2, Returns(fallback2));
    assert subscriber.trace[|subscriber.trace| - 1] == Subscribe(fallback2);
    assert !subscriber.protocolFollowed;
  }
}
