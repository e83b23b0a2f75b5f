/**
 * HTTP execution strategies reduced to what the server builder decides with:
 * which request/response stages must be offloaded from the I/O thread.
 */
module ExecutionStrategies {

  /** The three request/response stages a strategy may offload. */
  datatype Offload = OffloadReceiveMetadata | OffloadReceiveData | OffloadSend

  /**
   * `DefaultStrategy` is the shared `defaultStrategy()` instance; the builder compares
   * against it by identity, so it is kept apart from a custom strategy with the same offloads.
   */
  datatype ExecutionStrategy = DefaultStrategy | Custom(flags: set<Offload>)

  /** REQRESP_OFFLOADS: metadata, data and send all offloaded. */
  const RequestResponseOffloads: set<Offload> := {OffloadReceiveMetadata, OffloadReceiveData, OffloadSend}

  /** `offloadNone()` and `offloadNever()`: nothing is offloaded. */
  const NoOffloads: ExecutionStrategy := Custom({})

  /** The stages a strategy offloads; the default strategy offloads all of them. */
  function Offloads(s: ExecutionStrategy): (r: set<Offload>)
    ensures s.DefaultStrategy? ==> r == RequestResponseOffloads
  {
    match s
    case DefaultStrategy => RequestResponseOffloads
    case Custom(flags) => flags
  }

  /** There are no offloads besides the three request/response stages. */
  lemma OffloadsWithinRequestResponse(s: ExecutionStrategy)
    ensures Offloads(s) <= RequestResponseOffloads
  {
    forall o | o in Offloads(s)
      ensures o in RequestResponseOffloads
    {
      match o
      case OffloadReceiveMetadata =>
      case OffloadReceiveData =>
      case OffloadSend =>
    }
  }

  predicate HasOffloads(s: ExecutionStrategy) {
    Offloads(s) != {}
  }

  predicate IsRequestResponseOffloaded(s: ExecutionStrategy) {
    Offloads(s) * RequestResponseOffloads != {}
  }

  /** `a.merge(b)`: the least strategy that offloads whatever either of them offloads. */
  function Merge(a: ExecutionStrategy, b: ExecutionStrategy): (r: ExecutionStrategy)
    ensures Offloads(a) <= Offloads(r) && Offloads(b) <= Offloads(r)
    ensures forall c :: Offloads(a) <= Offloads(c) && Offloads(b) <= Offloads(c) ==> Offloads(r) <= Offloads(c)
    ensures HasOffloads(r) <==> HasOffloads(a) || HasOffloads(b)
  {
    Custom(Offloads(a) + Offloads(b))
  }

  /** `of.missing(have)`: the offloads of `of` that `have` does not already provide. */
  function Missing(of: set<Offload>, have: ExecutionStrategy): (r: ExecutionStrategy)
    ensures Offloads(r) * Offloads(have) == {}
    ensures Offloads(r) + (Offloads(have) * of) == of
  {
    Custom(of - Offloads(have))
  }
}
