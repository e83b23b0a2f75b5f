/**
 * The HTTP server builder: two ordered filter lists that builder methods append to,
 * the configured execution strategy, and the chain it assembles when the server listens.
 */
module ServerBuilder {
  import opened Wrappers
  import opened ExecutionStrategies
  import opened FilterChain

  /** A connection acceptor factory, by identity. */
  type AcceptorFactory = nat

  /**
   * The request path the builder lays out in front of the raw service: non-offloading
   * filters first; then, when they exist and request/response is offloaded, one boundary
   * that hands every other filter to the offloading executor; otherwise the other filters.
   */
  ghost function ChainFor(nonOffloading: seq<FilterFactory>, offloading: seq<FilterFactory>,
                          strategy: ExecutionStrategy): seq<FilterFactory>
  {
    if nonOffloading == [] then offloading
    else if IsRequestResponseOffloaded(strategy) then nonOffloading + [Offloading(strategy, offloading)]
    else nonOffloading + offloading
  }

  /** The internal filters around the chain, outermost first. */
  ghost function InternalLayers(lifecycleObserver: Option<nat>): seq<FilterFactory> {
    (if lifecycleObserver.Some? then [LifecycleObserver(lifecycleObserver.value)] else []) + [KeepAlive, ExceptionMapper]
  }

  /** Non-offloading filters always run first, before any hand-off to another executor. */
  lemma NonOffloadingFiltersFirst(nonOffloading: seq<FilterFactory>, offloading: seq<FilterFactory>,
                                  strategy: ExecutionStrategy)
    ensures |nonOffloading| <= |ChainFor(nonOffloading, offloading, strategy)|
    ensures ChainFor(nonOffloading, offloading, strategy)[..|nonOffloading|] == nonOffloading
  {
  }

  /** Registered filters are never internal filters, so the chain holds no exception mapper of its own. */
  lemma ChainHasNoInternalFilter(nonOffloading: seq<FilterFactory>, offloading: seq<FilterFactory>,
                                                    strategy: ExecutionStrategy)
    requires forall f :: f in nonOffloading ==> f.Registrable()
    requires forall f :: f in offloading ==> f.Registrable()
    ensures ExceptionMapper !in ChainFor(nonOffloading, offloading, strategy)
    ensures KeepAlive !in ChainFor(nonOffloading, offloading, strategy)
  {
  }

  class HttpServerBuilder {
    var connectionAcceptorFactory: Option<seq<AcceptorFactory>>
    var noOffloadServiceFilters: seq<FilterFactory>
    var serviceFilters: seq<FilterFactory>
    var strategy: ExecutionStrategy
    var lifecycleObserver: Option<nat>

    /** Only user-level factories are registered, and no non-offloading one requires offloading. */
    ghost predicate Valid()
      reads this
    {
      && (forall f :: f in noOffloadServiceFilters ==> f.Registrable() && !HasOffloads(f.RequiredOffloads()))
      && (forall f :: f in serviceFilters ==> f.Registrable())
    }

    /** A new builder already holds the filter that clears the async context, as a non-offloading filter. */
    constructor ()
      ensures Valid()
      ensures noOffloadServiceFilters == [ClearAsyncContext] && serviceFilters == []
      ensures strategy == DefaultStrategy && connectionAcceptorFactory == None && lifecycleObserver == None
    {
      connectionAcceptorFactory := None;
      noOffloadServiceFilters := [];
      serviceFilters := [];
      strategy := DefaultStrategy;
      lifecycleObserver := None;
      new;
      var thrown := AppendNonOffloadingServiceFilter(ClearAsyncContext);
    }

    method AppendConnectionAcceptorFilter(factory: AcceptorFactory)
      modifies this
      ensures connectionAcceptorFactory == Some(match old(connectionAcceptorFactory)
                                                 case None => [factory]
                                                 case Some(earlier) => earlier + [factory])
      ensures noOffloadServiceFilters == old(noOffloadServiceFilters) && serviceFilters == old(serviceFilters)
      ensures strategy == old(strategy) && lifecycleObserver == old(lifecycleObserver)
    {
      match connectionAcceptorFactory
      case None => connectionAcceptorFactory := Some([factory]);
      case Some(earlier) => connectionAcceptorFactory := Some(earlier + [factory]);
    }

    /** Registers a filter to run on the I/O thread; one that requires offloading is refused. */
    method AppendNonOffloadingServiceFilter(factory: FilterFactory) returns (thrown: Option<ConfigError>)
      requires Valid() && factory.Registrable()
      modifies this
      ensures Valid()
      ensures thrown.None? <==> !HasOffloads(factory.RequiredOffloads())
      ensures thrown.Some? ==> thrown.value == IllegalArgument("Non-offloading filter", factory.RequiredOffloads())
      ensures noOffloadServiceFilters == if thrown.None? then old(noOffloadServiceFilters) + [factory]
                                         else old(noOffloadServiceFilters)
      ensures serviceFilters == old(serviceFilters) && strategy == old(strategy)
      ensures connectionAcceptorFactory == old(connectionAcceptorFactory) && lifecycleObserver == old(lifecycleObserver)
    {
      var checked := CheckNonOffloading("Non-offloading filter", DefaultStrategy, Some(factory.RequiredOffloads()), factory);
      match checked
      case Failure(error) =>
        thrown := Some(error);
      case Success(checkedFactory) =>
        noOffloadServiceFilters := noOffloadServiceFilters + [checkedFactory];
        thrown := None;
    }

    /**
     * Registers a filter, applied only to requests `condition` accepts, to run on the I/O thread.
     * The predicate is checked first (a non-influencer is assumed never to offload), then the factory.
     */
    method AppendNonOffloadingServiceFilterWhen(condition: RequestPredicate, factory: FilterFactory)
      returns (thrown: Option<ConfigError>)
      requires Valid() && factory.Registrable()
      modifies this
      ensures Valid()
      ensures thrown.None? <==> !HasOffloads(RequiredOrDefault(condition.influence, NoOffloads))
                                && !HasOffloads(factory.RequiredOffloads())
      ensures HasOffloads(RequiredOrDefault(condition.influence, NoOffloads)) ==>
                thrown == Some(IllegalArgument("Non-offloading predicate", condition.influence.value))
      ensures !HasOffloads(RequiredOrDefault(condition.influence, NoOffloads)) && HasOffloads(factory.RequiredOffloads()) ==>
                thrown == Some(IllegalArgument("Non-offloading filter", factory.RequiredOffloads()))
      ensures noOffloadServiceFilters == if thrown.None? then old(noOffloadServiceFilters) + [Conditional(condition, factory)]
                                         else old(noOffloadServiceFilters)
      ensures serviceFilters == old(serviceFilters) && strategy == old(strategy)
      ensures connectionAcceptorFactory == old(connectionAcceptorFactory) && lifecycleObserver == old(lifecycleObserver)
    {
      var checkedCondition := CheckNonOffloading("Non-offloading predicate", NoOffloads, condition.influence, condition);
      if checkedCondition.Failure? {
        thrown := Some(checkedCondition.error);
        return;
      }
      var checkedFactory := CheckNonOffloading("Non-offloading filter", DefaultStrategy, Some(factory.RequiredOffloads()), factory);
      if checkedFactory.Failure? {
        thrown := Some(checkedFactory.error);
        return;
      }
      noOffloadServiceFilters := noOffloadServiceFilters + [Conditional(condition, factory)];
      thrown := None;
    }

    method AppendServiceFilter(factory: FilterFactory)
      requires Valid() && factory.Registrable()
      modifies this
      ensures Valid()
      ensures serviceFilters == old(serviceFilters) + [factory]
      ensures noOffloadServiceFilters == old(noOffloadServiceFilters) && strategy == old(strategy)
      ensures connectionAcceptorFactory == old(connectionAcceptorFactory) && lifecycleObserver == old(lifecycleObserver)
    {
      serviceFilters := serviceFilters + [factory];
    }

    method AppendServiceFilterWhen(condition: RequestPredicate, factory: FilterFactory)
      requires Valid() && factory.Registrable()
      modifies this
      ensures Valid()
      ensures serviceFilters == old(serviceFilters) + [Conditional(condition, factory)]
      ensures noOffloadServiceFilters == old(noOffloadServiceFilters) && strategy == old(strategy)
      ensures connectionAcceptorFactory == old(connectionAcceptorFactory) && lifecycleObserver == old(lifecycleObserver)
    {
      AppendServiceFilter(Conditional(condition, factory));
    }

    method SetExecutionStrategy(strategy: ExecutionStrategy)
      modifies this
      ensures this.strategy == strategy
      ensures noOffloadServiceFilters == old(noOffloadServiceFilters) && serviceFilters == old(serviceFilters)
      ensures connectionAcceptorFactory == old(connectionAcceptorFactory) && lifecycleObserver == old(lifecycleObserver)
    {
      this.strategy := strategy;
    }

    method SetLifecycleObserver(observer: nat)
      modifies this
      ensures lifecycleObserver == Some(observer)
      ensures noOffloadServiceFilters == old(noOffloadServiceFilters) && serviceFilters == old(serviceFilters)
      ensures connectionAcceptorFactory == old(connectionAcceptorFactory) && strategy == old(strategy)
    {
      lifecycleObserver := Some(observer);
    }

    /**
     * `computeServiceStrategy`: the service's own requirement (the default strategy for a
     * service that declares none) merged with every offloading filter's, and with the
     * configured strategy unless that is the default one.
     */
    method ComputeServiceStrategy(service: Option<ExecutionStrategy>) returns (r: ExecutionStrategy)
      ensures var filterStrategy := ComputeRequiredStrategy(serviceFilters, RequiredOrDefault(service, DefaultStrategy));
              r == if strategy == DefaultStrategy then filterStrategy else Merge(strategy, filterStrategy)
      ensures Offloads(r) == (if strategy == DefaultStrategy then {} else Offloads(strategy))
                             + Offloads(RequiredOrDefault(service, DefaultStrategy)) + RequiredByAny(serviceFilters)
      ensures forall f :: f in serviceFilters ==> Offloads(f.RequiredOffloads()) <= Offloads(r)
      ensures service.None? ==> Offloads(r) == RequestResponseOffloads
    {
      var serviceStrategy := RequiredOrDefault(service, DefaultStrategy);
      var filterStrategy := ComputeRequiredStrategy(serviceFilters, serviceStrategy);
      r := if DefaultStrategy == strategy then filterStrategy else Merge(strategy, filterStrategy);
      OffloadsWithinRequestResponse(r);
    }

    /**
     * `listenForService` up to the bind: the service with the filter chain folded onto it,
     * the strategy of the execution context, and the connection acceptor.
     */
    method ListenForService(rawService: Service, strategy: ExecutionStrategy)
      returns (filtered: Service, contextStrategy: ExecutionStrategy, acceptor: Option<seq<AcceptorFactory>>)
      ensures Layers(filtered) == ChainFor(noOffloadServiceFilters, serviceFilters, strategy) + Layers(rawService)
      ensures Terminal(filtered) == Terminal(rawService)
      ensures noOffloadServiceFilters == [] && serviceFilters == [] ==> filtered == rawService
      ensures contextStrategy == if noOffloadServiceFilters != [] && IsRequestResponseOffloaded(strategy)
                                 then Missing(RequestResponseOffloads, strategy) else strategy
      ensures acceptor == connectionAcceptorFactory
    {
      acceptor := connectionAcceptorFactory;
      if noOffloadServiceFilters == [] {
        filtered := if serviceFilters == [] then rawService else BuildService(serviceFilters, rawService);
        contextStrategy := strategy;
        NestLayers(serviceFilters, rawService);
      } else {
        var nonOffloadingFilters := noOffloadServiceFilters;
        if IsRequestResponseOffloaded(strategy) {
          contextStrategy := Missing(RequestResponseOffloads, strategy);
          nonOffloadingFilters := nonOffloadingFilters + [Offloading(strategy, serviceFilters)];
        } else {
          nonOffloadingFilters := nonOffloadingFilters + serviceFilters;
          contextStrategy := strategy;
        }
        filtered := BuildService(nonOffloadingFilters, rawService);
        NestLayers(nonOffloadingFilters, rawService);
      }
    }

    /**
     * `listenStreaming` up to the transport: the chain for the configured strategy, wrapped in
     * the internal filters. The exception mapper runs exactly once, just around the chain.
     */
    method ListenStreaming(rawService: nat)
      returns (bound: Service, contextStrategy: ExecutionStrategy, acceptor: Option<seq<AcceptorFactory>>)
      requires Valid()
      ensures Layers(bound) == InternalLayers(lifecycleObserver) + ChainFor(noOffloadServiceFilters, serviceFilters, strategy)
      ensures Terminal(bound) == rawService
      ensures multiset(Layers(bound))[ExceptionMapper] == 1 && multiset(Layers(bound))[KeepAlive] == 1
      ensures contextStrategy == if noOffloadServiceFilters != [] && IsRequestResponseOffloaded(strategy)
                                 then Missing(RequestResponseOffloads, strategy) else strategy
      ensures acceptor == connectionAcceptorFactory
    {
      var filtered;
      filtered, contextStrategy, acceptor := ListenForService(Raw(rawService), strategy);
      bound := ApplyInternalFilters(filtered, lifecycleObserver);
      ChainHasNoInternalFilter(noOffloadServiceFilters, serviceFilters, strategy);
      var chain := ChainFor(noOffloadServiceFilters, serviceFilters, strategy);
      assert multiset(chain)[ExceptionMapper] == 0 && multiset(chain)[KeepAlive] == 0;
    }
  }
}
