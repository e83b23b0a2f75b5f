/**
 * Service filters, the services they build, and the pure reductions of the server
 * builder: folding filter factories onto a service, merging the offloads filters
 * require, and checking that a filter registered as non-offloading needs none.
 */
module FilterChain {
  import opened Wrappers
  import opened ExecutionStrategies

  /** A request predicate; `influence` is what it declares when it is an execution strategy influencer. */
  datatype RequestPredicate = RequestPredicate(name: nat, influence: Option<ExecutionStrategy>)

  /**
   * A service filter factory. Every factory declares the offloads it requires.
   * `Conditional` is a factory applied only to requests its predicate accepts;
   * `Offloading` is the boundary that hands `offloaded` over to another executor, where it
   * runs them as the factory `buildFactory(offloaded)` builds (see `OffloadedService`);
   * `PassThrough` is the bare delegating layer; the last three are the internal filters.
   */
  datatype FilterFactory =
    | UserFilter(name: nat, required: ExecutionStrategy)
    | Conditional(condition: RequestPredicate, filter: FilterFactory)
    | ClearAsyncContext
    | Offloading(strategy: ExecutionStrategy, offloaded: seq<FilterFactory>)
    | PassThrough
    | ExceptionMapper
    | KeepAlive
    | LifecycleObserver(observer: nat)
  {
    /**
     * `requiredOffloads()`: a user filter declares its own; a conditional factory requires what
     * the factory it guards requires; every built-in filter declares `offloadNone()`.
     */
    function RequiredOffloads(): (r: ExecutionStrategy)
      ensures Conditional? ==> r == filter.RequiredOffloads()
      ensures UserFilter? ==> r == required
      ensures !UserFilter? && !Conditional? ==> !HasOffloads(r)
      ensures HasOffloads(r) ==> Innermost().UserFilter? && r == Innermost().required
    {
      match this
      case UserFilter(_, required) => required
      case Conditional(_, filter) => filter.RequiredOffloads()
      case _ => NoOffloads
    }

    /** The factory a stack of conditions finally applies. */
    function Innermost(): FilterFactory {
      match this
      case Conditional(_, filter) => filter.Innermost()
      case _ => this
    }

    /** The factories a builder method can be given (internal filters are never appended). */
    predicate Registrable() {
      match this
      case UserFilter(_, _) => true
      case Conditional(_, filter) => filter.Registrable()
      case ClearAsyncContext => true
      case _ => false
    }
  }

  /** A streaming service: the raw service, or a filter created around the next service. */
  datatype Service = Raw(id: nat) | Wrapped(filter: FilterFactory, next: Service)

  /** The filters a request passes through, outermost first. */
  function Layers(svc: Service): seq<FilterFactory> {
    match svc
    case Raw(_) => []
    case Wrapped(filter, next) => [filter] + Layers(next)
  }

  /** The raw service at the bottom of the chain. */
  function Terminal(svc: Service): nat {
    match svc
    case Raw(id) => id
    case Wrapped(_, next) => Terminal(next)
  }

  /** What a filter that logs around its call to the delegate observes. */
  datatype Step = Enter(filter: FilterFactory) | Serve(service: nat) | Leave(filter: FilterFactory)

  function Execution(svc: Service): seq<Step> {
    match svc
    case Raw(id) => [Serve(id)]
    case Wrapped(filter, next) => [Enter(filter)] + Execution(next) + [Leave(filter)]
  }

  /** `filters[0].create(filters[1].create(... filters[n-1].create(svc)))`: the reference composition. */
  function Nest(filters: seq<FilterFactory>, svc: Service): Service
    decreases |filters|
  {
    if filters == [] then svc else Wrapped(filters[0], Nest(filters[1..], svc))
  }

  lemma {:induction false} NestLayers(filters: seq<FilterFactory>, svc: Service)
    ensures Layers(Nest(filters, svc)) == filters + Layers(svc)
    ensures Terminal(Nest(filters, svc)) == Terminal(svc)
    decreases |filters|
  {
    if filters != [] {
      NestLayers(filters[1..], svc);
      assert filters == [filters[0]] + filters[1..];
    }
  }

  lemma {:induction false} NestSnoc(filters: seq<FilterFactory>, last: FilterFactory, svc: Service)
    ensures Nest(filters + [last], svc) == Nest(filters, Wrapped(last, svc))
    decreases |filters|
  {
    if filters == [] {
      assert [last][1..] == [];
    } else {
      assert (filters + [last])[1..] == filters[1..] + [last];
      NestSnoc(filters[1..], last, svc);
    }
  }

  /** Request path: every filter is entered in append order. */
  function Entries(filters: seq<FilterFactory>): seq<Step> {
    seq(|filters|, i requires 0 <= i < |filters| => Enter(filters[i]))
  }

  /** Response path: every filter is left in the reverse of append order. */
  function Exits(filters: seq<FilterFactory>): seq<Step> {
    seq(|filters|, i requires 0 <= i < |filters| => Leave(filters[|filters| - 1 - i]))
  }

  lemma {:induction false} NestExecution(filters: seq<FilterFactory>, svc: Service)
    ensures Execution(Nest(filters, svc)) == Entries(filters) + Execution(svc) + Exits(filters)
    decreases |filters|
  {
    if filters != [] {
      var rest := filters[1..];
      NestExecution(rest, svc);
      assert Entries(filters) == [Enter(filters[0])] + Entries(rest);
      assert Exits(filters) == Exits(rest) + [Leave(filters[0])];
    }
  }

  /**
   * `Stream.reduce((prev, filter) -> svc -> prev.create(filter.create(svc)))`: a left fold
   * with no identity, so an empty stream reduces to nothing.
   */
  function Reduce(filters: seq<FilterFactory>): (r: Option<Service -> Service>)
    ensures r.Some? <==> filters != []
    decreases |filters|
  {
    if filters == [] then None
    else if |filters| == 1 then Some((svc: Service) => Wrapped(filters[0], svc))
    else
      var prev := Reduce(filters[..|filters| - 1]).value;
      var filter := filters[|filters| - 1];
      Some((svc: Service) => prev(Wrapped(filter, svc)))
  }

  /** The left fold builds the same service as the right-nested composition. */
  lemma {:induction false} ReduceNests(filters: seq<FilterFactory>, svc: Service)
    requires filters != []
    ensures Reduce(filters).value(svc) == Nest(filters, svc)
    decreases |filters|
  {
    if |filters| == 1 {
      assert filters[1..] == [];
    } else {
      var init, last := filters[..|filters| - 1], filters[|filters| - 1];
      ReduceNests(init, Wrapped(last, svc));
      NestSnoc(init, last, svc);
      assert init + [last] == filters;
    }
  }

  lemma ReducedFactoryNests(filters: seq<FilterFactory>)
    requires filters != []
    ensures forall svc :: Reduce(filters).value(svc) == Nest(filters, svc)
  {
    forall svc {
      ReduceNests(filters, svc);
    }
  }

  /** `buildService`: the first filter appended ends up outermost; no filters, no wrapper. */
  function BuildService(filters: seq<FilterFactory>, service: Service): (r: Service)
    ensures r == Nest(filters, service)
    ensures filters == [] ==> r == service
  {
    match Reduce(filters)
    case None => service
    case Some(create) => ReduceNests(filters, service); create(service)
  }

  /** `buildFactory`: like `buildService`, but an empty list still yields a pass-through layer. */
  function BuildFactory(filters: seq<FilterFactory>): (create: Service -> Service)
    ensures forall svc :: create(svc) == if filters == [] then Wrapped(PassThrough, svc) else Nest(filters, svc)
  {
    match Reduce(filters)
    case None => (svc: Service) => Wrapped(PassThrough, svc)
    case Some(composed) => ReducedFactoryNests(filters); composed
  }

  /**
   * Behind an offloading boundary: the factory `buildFactory(offloaded)` the boundary was given,
   * applied to the service it wraps. An empty list still leaves a pass-through layer.
   */
  function OffloadedService(boundary: FilterFactory, next: Service): (r: Service)
    requires boundary.Offloading?
    ensures Layers(r) == (if boundary.offloaded == [] then [PassThrough] else boundary.offloaded) + Layers(next)
    ensures Terminal(r) == Terminal(next)
  {
    NestLayers(boundary.offloaded, next);
    BuildFactory(boundary.offloaded)(next)
  }

  /** `requiredOffloads(anything, defaultOffloads)`: an influencer's declaration, else the default. */
  function RequiredOrDefault(influence: Option<ExecutionStrategy>, defaultOffloads: ExecutionStrategy): (r: ExecutionStrategy)
    ensures influence.Some? ==> r == influence.value
    ensures influence.None? ==> r == defaultOffloads
  {
    match influence
    case Some(declared) => declared
    case None => defaultOffloads
  }

  /** The IllegalArgumentException a registration throws, with its description and the offending strategy. */
  datatype ConfigError = IllegalArgument(desc: string, required: ExecutionStrategy)

  /** `checkNonOffloading`: returns its argument unless what it requires (or is assumed to require) offloads. */
  function CheckNonOffloading<T>(desc: string, assumeStrategy: ExecutionStrategy,
                                 influence: Option<ExecutionStrategy>, obj: T): (r: Result<T, ConfigError>)
    ensures r.Failure? <==> if influence.Some? then HasOffloads(influence.value) else HasOffloads(assumeStrategy)
    ensures r.Success? ==> r.value == obj
    ensures r.Failure? ==> r.error.desc == desc && HasOffloads(r.error.required)
    ensures r.Failure? ==> r.error.required == if influence.Some? then influence.value else assumeStrategy
  {
    var required := RequiredOrDefault(influence, assumeStrategy);
    if HasOffloads(required) then Failure(IllegalArgument(desc, required)) else Success(obj)
  }

  /** Every offload some filter of `filters` requires. */
  function RequiredByAny(filters: seq<FilterFactory>): set<Offload> {
    set f, o | f in filters && o in Offloads(f.RequiredOffloads()) :: o
  }

  lemma RequiredByAnySnoc(filters: seq<FilterFactory>, last: FilterFactory)
    ensures RequiredByAny(filters + [last]) == RequiredByAny(filters) + Offloads(last.RequiredOffloads())
  {
    var all := filters + [last];
    forall o | o in RequiredByAny(all)
      ensures o in RequiredByAny(filters) + Offloads(last.RequiredOffloads())
    {
      var f :| f in all && o in Offloads(f.RequiredOffloads());
      if f != last {
        assert f in filters;
      }
    }
    forall o | o in RequiredByAny(filters)
      ensures o in RequiredByAny(all)
    {
      var f :| f in filters && o in Offloads(f.RequiredOffloads());
      assert f in all;
    }
    assert last in all;
  }

  /** `computeRequiredStrategy`: `reduce(defaultStrategy, merge)` over the filters' requirements. */
  function ComputeRequiredStrategy(filters: seq<FilterFactory>, defaultStrategy: ExecutionStrategy): (r: ExecutionStrategy)
    ensures Offloads(r) == Offloads(defaultStrategy) + RequiredByAny(filters)
    ensures forall f :: f in filters ==> Offloads(f.RequiredOffloads()) <= Offloads(r)
    ensures filters == [] ==> r == defaultStrategy
    decreases |filters|
  {
    if filters == [] then defaultStrategy
    else
      var init, last := filters[..|filters| - 1], filters[|filters| - 1];
      assert init + [last] == filters;
      RequiredByAnySnoc(init, last);
      Merge(ComputeRequiredStrategy(init, defaultStrategy), last.RequiredOffloads())
  }

  /**
   * `applyInternalFilters`: the exception mapper wraps the service, keep-alive wraps that,
   * and the lifecycle observer, when one is configured, is outermost.
   */
  function ApplyInternalFilters(service: Service, lifecycleObserver: Option<nat>): (r: Service)
    ensures Layers(r) == (if lifecycleObserver.Some? then [LifecycleObserver(lifecycleObserver.value)] else [])
                         + [KeepAlive, ExceptionMapper] + Layers(service)
    ensures Terminal(r) == Terminal(service)
  {
    var mapped := Wrapped(ExceptionMapper, service);
    var keptAlive := Wrapped(KeepAlive, mapped);
    assert Terminal(keptAlive) == Terminal(service);
    assert Layers(keptAlive) == [KeepAlive, ExceptionMapper] + Layers(service);
    match lifecycleObserver
    case Some(observer) => Wrapped(LifecycleObserver(observer), keptAlive)
    case None => keptAlive
  }
}
