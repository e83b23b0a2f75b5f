/**
 * `Publisher.onErrorResume`: a subscriber that, on the first failure, subscribes itself
 * to a fallback source once, switching the downstream's subscription instead of
 * delivering a second `onSubscribe`.
 */
module Resume {
  import opened Wrappers

  type PublisherId = nat
  type SubscriptionId = nat
  type FactoryId = nat

  datatype ThrowableKind = NullPointer | IllegalArgument | Failure(name: nat)

  /** A throwable object: its identity, its class, and the throwables it suppresses. */
  datatype Throwable = Throwable(identity: nat, kind: ThrowableKind, suppressed: seq<Throwable>)

  /** `t.addSuppressed(exception)`: a throwable cannot suppress itself (IllegalArgumentException). */
  function AddSuppressed(t: Throwable, exception: Throwable): (r: Result<Throwable, ThrowableKind>)
    ensures r.Success? <==> exception.identity != t.identity
    ensures r.Success? ==> r.value.identity == t.identity && r.value.kind == t.kind
                           && r.value.suppressed == t.suppressed + [exception]
    ensures r.Failure? ==> r.error == IllegalArgument
  {
    if exception.identity == t.identity then Result.Failure(IllegalArgument)
    else Success(t.(suppressed := t.suppressed + [exception]))
  }

  /** How the catch block of `onError` ends: the downstream gets an error, or an exception escapes. */
  datatype CatchOutcome = Delivered(error: Throwable) | Escaped(kind: ThrowableKind)

  /** The catch block as written: suppress the original failure `t` into `thrown`, then deliver `thrown`. */
  function CatchFactoryFailureAsWritten(thrown: Throwable, t: Throwable): (r: CatchOutcome)
    ensures r.Delivered? <==> thrown.identity != t.identity
    ensures r.Delivered? ==> r.error.identity == thrown.identity && r.error.suppressed == thrown.suppressed + [t]
  {
    match AddSuppressed(thrown, t)
    case Success(withCause) => Delivered(withCause)
    case Failure(kind) => Escaped(kind)
  }

  /**
   * A factory that rethrows the very failure it was given makes `addSuppressed` throw, so
   * `onError` throws IllegalArgumentException and the downstream never receives a terminal signal.
   */
  lemma RethrowingFactoryEscapes(t: Throwable)
    ensures CatchFactoryFailureAsWritten(t, t) == Escaped(IllegalArgument)
  {
  }

  /**
   * The catch block as intended: the downstream always receives the factory's failure,
   * carrying the original failure as its last suppressed cause unless they are the same object.
   */
  function CatchFactoryFailure(thrown: Throwable, t: Throwable): (r: Throwable)
    ensures r.identity == thrown.identity && r.kind == thrown.kind
    ensures thrown.identity != t.identity ==> r.suppressed == thrown.suppressed + [t]
    ensures thrown.identity == t.identity ==> r == thrown
    ensures CatchFactoryFailureAsWritten(thrown, t).Delivered? ==> r == CatchFactoryFailureAsWritten(thrown, t).error
  {
    match AddSuppressed(thrown, t)
    case Success(withCause) => withCause
    case Failure(_) => thrown
  }

  datatype SubscriptionCall = SwitchTo(subscription: SubscriptionId) | ItemReceived | Request(n: int)

  /** The subscription handed downstream; only the calls made on it are recorded. */
  class SequentialSubscription {
    ghost const initial: SubscriptionId
    ghost var calls: seq<SubscriptionCall>

    constructor (s: SubscriptionId)
      ensures initial == s && calls == []
    {
      initial := s;
      calls := [];
    }

    method SwitchTo(s: SubscriptionId)
      modifies this
      ensures calls == old(calls) + [SubscriptionCall.SwitchTo(s)]
    {
      calls := calls + [SubscriptionCall.SwitchTo(s)];
    }

    method ItemReceived()
      modifies this
      ensures calls == old(calls) + [SubscriptionCall.ItemReceived]
    {
      calls := calls + [SubscriptionCall.ItemReceived];
    }

    method Request(n: int)
      modifies this
      ensures calls == old(calls) + [SubscriptionCall.Request(n)]
    {
      calls := calls + [SubscriptionCall.Request(n)];
    }
  }

  /** The signals the downstream subscriber receives. */
  datatype Signal<T> =
    | OnSubscribe(subscription: SequentialSubscription)
    | OnNext(item: T)
    | OnError(error: Throwable)
    | OnComplete

  /** What the resume subscriber does, in order: signal downstream, call the subscription, subscribe to a source. */
  datatype Effect<T> = Deliver(signal: Signal<T>) | Call(call: SubscriptionCall) | Subscribe(source: PublisherId)

  /** What `nextFactory.apply(t)` does: return a source, return null, or throw. */
  datatype FactoryOutcome = Returns(publisher: PublisherId) | ReturnsNull(npe: nat) | Throws(thrown: Throwable)

  function Count<T>(trace: seq<Effect<T>>, p: Effect<T> -> bool): nat
    decreases |trace|
  {
    if trace == [] then 0 else Count(trace[..|trace| - 1], p) + (if p(trace[|trace| - 1]) then 1 else 0)
  }

  lemma CountSnoc<T>(trace: seq<Effect<T>>, e: Effect<T>, p: Effect<T> -> bool)
    ensures Count(trace + [e], p) == Count(trace, p) + (if p(e) then 1 else 0)
  {
    assert (trace + [e])[..|trace|] == trace;
  }

  predicate IsDownstreamSubscribe<T>(e: Effect<T>) { e.Deliver? && e.signal.OnSubscribe? }
  predicate IsSwitch<T>(e: Effect<T>) { e.Call? && e.call.SwitchTo? }
  predicate IsSourceSubscribe<T>(e: Effect<T>) { e.Subscribe? }

  /** `onSubscribe` calls forwarded downstream. */
  ghost function DownstreamSubscribes<T>(trace: seq<Effect<T>>): nat { Count(trace, IsDownstreamSubscribe<T>) }
  /** Switches of the sequential subscription to a fallback's subscription. */
  ghost function Switches<T>(trace: seq<Effect<T>>): nat { Count(trace, IsSwitch<T>) }
  /** Sources subscribed to: the first one, then each fallback. */
  ghost function Sources<T>(trace: seq<Effect<T>>): nat { Count(trace, IsSourceSubscribe<T>) }

  class ResumeSubscriber<T> {
    var nextFactory: Option<FactoryId>
    var sequentialSubscription: SequentialSubscription?
    /** Everything this subscriber has done, in order. */
    ghost var trace: seq<Effect<T>>
    /** The source most recently subscribed to has not called `onSubscribe` yet. */
    ghost var awaitingOnSubscribe: bool
    /** No `onError` has arrived before its source's `onSubscribe`. */
    ghost var protocolFollowed: bool

    /**
     * The downstream sees `onSubscribe` exactly once, with the sequential subscription, from the
     * first upstream `onSubscribe` on; the factory is dropped at the second upstream `onSubscribe`;
     * and while upstream sources keep to the protocol there is at most one fallback source.
     */
    ghost predicate Valid()
      reads this
    {
      && DownstreamSubscribes(trace) == (if sequentialSubscription == null then 0 else 1)
      && (forall i :: 0 <= i < |trace| && IsDownstreamSubscribe(trace[i]) ==>
            trace[i].signal.subscription == sequentialSubscription)
      && (sequentialSubscription == null ==> Switches(trace) == 0)
      && (nextFactory.None? <==> DownstreamSubscribes(trace) + Switches(trace) >= 2)
      && (!awaitingOnSubscribe ==> sequentialSubscription != null)
      && (protocolFollowed ==> Sources(trace) <= 2)
      && (protocolFollowed && Sources(trace) == 2 ==>
            sequentialSubscription != null && (awaitingOnSubscribe || nextFactory.None?))
    }

    constructor (nextFactory: FactoryId)
      ensures Valid()
      ensures this.nextFactory == Some(nextFactory) && sequentialSubscription == null
      ensures trace == [] && awaitingOnSubscribe && protocolFollowed
    {
      this.nextFactory := Some(nextFactory);
      sequentialSubscription := null;
      trace := [];
      awaitingOnSubscribe := true;
      protocolFollowed := true;
    }

    /** Records that `source.subscribe(this)` was called. */
    method SubscribeTo(source: PublisherId)
      requires Valid()
      requires protocolFollowed ==> Sources(trace) == 0 || (!awaitingOnSubscribe && nextFactory.Some?)
      modifies this
      ensures Valid()
      ensures trace == old(trace) + [Subscribe(source)] && awaitingOnSubscribe
      ensures nextFactory == old(nextFactory) && sequentialSubscription == old(sequentialSubscription)
      ensures protocolFollowed == old(protocolFollowed)
    {
      CountSnoc(trace, Subscribe(source), IsDownstreamSubscribe<T>);
      CountSnoc(trace, Subscribe(source), IsSwitch<T>);
      CountSnoc(trace, Subscribe(source), IsSourceSubscribe<T>);
      trace := trace + [Subscribe(source)];
      awaitingOnSubscribe := true;
    }

    /**
     * The first upstream `onSubscribe` wraps `s` in a sequential subscription and hands it
     * downstream; any later one drops the factory and switches to `s` without telling downstream.
     */
    method OnSubscribe(s: SubscriptionId)
      requires Valid()
      modifies this, sequentialSubscription
      ensures Valid()
      ensures old(sequentialSubscription) == null ==>
                && fresh(sequentialSubscription)
                && sequentialSubscription.initial == s && sequentialSubscription.calls == []
                && trace == old(trace) + [Deliver(Signal.OnSubscribe(sequentialSubscription))]
                && nextFactory == old(nextFactory)
      ensures old(sequentialSubscription) != null ==>
                && sequentialSubscription == old(sequentialSubscription) && nextFactory == None
                && sequentialSubscription.calls == old(sequentialSubscription.calls) + [SubscriptionCall.SwitchTo(s)]
                && trace == old(trace) + [Call(SubscriptionCall.SwitchTo(s))]
      ensures !awaitingOnSubscribe && protocolFollowed == old(protocolFollowed)
    {
      if sequentialSubscription == null {
        HandDownstream(s);
      } else {
        SwitchUpstream(s);
      }
    }

    /** The first upstream `onSubscribe`: wrap `s` and hand the wrapper downstream. */
    method HandDownstream(s: SubscriptionId)
      requires Valid() && sequentialSubscription == null
      modifies this
      ensures Valid()
      ensures fresh(sequentialSubscription)
      ensures sequentialSubscription.initial == s && sequentialSubscription.calls == []
      ensures trace == old(trace) + [Deliver(Signal.OnSubscribe(sequentialSubscription))]
      ensures nextFactory == old(nextFactory)
      ensures !awaitingOnSubscribe && protocolFollowed == old(protocolFollowed)
    {
      ghost var before := trace;
      assert forall i :: 0 <= i < |before| ==> !IsDownstreamSubscribe(before[i]);
      var current := new SequentialSubscription(s);
      sequentialSubscription := current;
      var e := Deliver(Signal.OnSubscribe(current));
      CountSnoc(before, e, IsDownstreamSubscribe<T>);
      CountSnoc(before, e, IsSwitch<T>);
      CountSnoc(before, e, IsSourceSubscribe<T>);
      trace := before + [e];
      awaitingOnSubscribe := false;
      assert forall i :: 0 <= i < |trace| && IsDownstreamSubscribe(trace[i]) ==> i == |before|;
    }

    /** A later upstream `onSubscribe`: drop the factory and switch to `s`, silently downstream. */
    method SwitchUpstream(s: SubscriptionId)
      requires Valid() && sequentialSubscription != null
      modifies this, sequentialSubscription
      ensures Valid()
      ensures sequentialSubscription == old(sequentialSubscription) && nextFactory == None
      ensures sequentialSubscription.calls == old(sequentialSubscription.calls) + [SubscriptionCall.SwitchTo(s)]
      ensures trace == old(trace) + [Call(SubscriptionCall.SwitchTo(s))]
      ensures !awaitingOnSubscribe && protocolFollowed == old(protocolFollowed)
    {
      ghost var before := trace;
      nextFactory := None;
      sequentialSubscription.SwitchTo(s);
      var e := Call(SubscriptionCall.SwitchTo(s));
      CountSnoc(before, e, IsDownstreamSubscribe<T>);
      CountSnoc(before, e, IsSwitch<T>);
      CountSnoc(before, e, IsSourceSubscribe<T>);
      trace := before + [e];
      awaitingOnSubscribe := false;
    }

    /** Accounts for the item on the subscription before forwarding it. */
    method OnNext(item: T)
      requires Valid() && sequentialSubscription != null
      modifies this, sequentialSubscription
      ensures Valid()
      ensures sequentialSubscription == old(sequentialSubscription) && nextFactory == old(nextFactory)
      ensures sequentialSubscription.calls == old(sequentialSubscription.calls) + [SubscriptionCall.ItemReceived]
      ensures trace == old(trace) + [Call(SubscriptionCall.ItemReceived), Deliver(Signal.OnNext(item))]
      ensures awaitingOnSubscribe == old(awaitingOnSubscribe) && protocolFollowed == old(protocolFollowed)
    {
      sequentialSubscription.ItemReceived();
      var accounted := Call(SubscriptionCall.ItemReceived);
      CountSnoc(trace, accounted, IsDownstreamSubscribe<T>);
      CountSnoc(trace, accounted, IsSwitch<T>);
      CountSnoc(trace, accounted, IsSourceSubscribe<T>);
      trace := trace + [accounted];
      Forward(Signal.OnNext(item));
    }

    /**
     * Without a factory the error goes straight downstream. Otherwise the factory is applied:
     * if it throws or returns null, that failure goes downstream with `t` suppressed in it;
     * if it returns a source, this subscriber subscribes to it and the downstream hears nothing.
     */
    method OnError(t: Throwable, apply: FactoryOutcome)
      requires Valid()
      requires apply.ReturnsNull? ==> apply.npe != t.identity
      modifies this
      ensures Valid()
      ensures sequentialSubscription == old(sequentialSubscription) && nextFactory == old(nextFactory)
      ensures old(nextFactory).None? ==> trace == old(trace) + [Deliver(Signal.OnError(t))]
      ensures old(nextFactory).Some? && apply.Throws? ==>
                trace == old(trace) + [Deliver(Signal.OnError(CatchFactoryFailure(apply.thrown, t)))]
      ensures old(nextFactory).Some? && apply.ReturnsNull? ==>
                trace == old(trace) + [Deliver(Signal.OnError(Throwable(apply.npe, NullPointer, [t])))]
      ensures old(nextFactory).Some? && apply.Returns? ==>
                trace == old(trace) + [Subscribe(apply.publisher)] && awaitingOnSubscribe
      ensures !(old(nextFactory).Some? && apply.Returns?) ==> awaitingOnSubscribe == old(awaitingOnSubscribe)
      ensures protocolFollowed == (old(protocolFollowed) && !old(awaitingOnSubscribe))
    {
      if awaitingOnSubscribe {
        protocolFollowed := false;
      }
      if nextFactory.None? {
        Forward(Signal.OnError(t));
        return;
      }
      var thrown;
      match apply {
        case Returns(next) =>
          SubscribeTo(next);
          return;
        case ReturnsNull(npe) =>
          thrown := Throwable(npe, NullPointer, []);
        case Throws(failure) =>
          thrown := failure;
      }
      var delivered := CatchFactoryFailure(thrown, t);
      assert apply.ReturnsNull? ==> delivered == Throwable(apply.npe, NullPointer, [t]);
      Forward(Signal.OnError(delivered));
    }

    method OnComplete()
      requires Valid()
      modifies this
      ensures Valid()
      ensures trace == old(trace) + [Deliver(Signal.OnComplete)]
      ensures sequentialSubscription == old(sequentialSubscription) && nextFactory == old(nextFactory)
      ensures awaitingOnSubscribe == old(awaitingOnSubscribe) && protocolFollowed == old(protocolFollowed)
    {
      Forward(Signal.OnComplete);
    }

    /** Delivers a signal other than `onSubscribe` to the downstream subscriber. */
    method Forward(signal: Signal<T>)
      requires Valid() && !signal.OnSubscribe?
      modifies this
      ensures Valid()
      ensures trace == old(trace) + [Deliver(signal)]
      ensures sequentialSubscription == old(sequentialSubscription) && nextFactory == old(nextFactory)
      ensures awaitingOnSubscribe == old(awaitingOnSubscribe) && protocolFollowed == old(protocolFollowed)
    {
      var e := Deliver(signal);
      CountSnoc(trace, e, IsDownstreamSubscribe<T>);
      CountSnoc(trace, e, IsSwitch<T>);
      CountSnoc(trace, e, IsSourceSubscribe<T>);
      trace := trace + [e];
    }
  }

  /** `handleSubscribe`: a fresh resume subscriber for the downstream, subscribed to the first source. */
  method HandleSubscribe<T>(first: PublisherId, nextFactory: FactoryId) returns (subscriber: ResumeSubscriber<T>)
    ensures fresh(subscriber) && subscriber.Valid()
    ensures subscriber.trace == [Subscribe(first)]
    ensures subscriber.nextFactory == Some(nextFactory) && subscriber.sequentialSubscription == null
    ensures subscriber.awaitingOnSubscribe && subscriber.protocolFollowed
  {
    subscriber := new ResumeSubscriber(nextFactory);
    subscriber.SubscribeTo(first);
  }
}
