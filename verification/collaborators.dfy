/**
 The collaborators the connector drives, reduced to outcome oracles: the
 channel factory, the channel's option setter, pipeline initialisation,
 registration, connect and bind, the bind-address supplier, and the address
 resolver. Every per-channel oracle is indexed by the channel's id, which is
 its creation round within one call.
 */
module Collaborators {
  import opened TransportTypes
  import opened ChannelOptions

  /** How an asynchronous collaborator operation completed. */
  datatype Outcome = Succeeds | Fails(cause: Cause)

  /** How registration completed; a failed registration also reports what
      `isRegistered()` answered afterwards. */
  datatype RegisterOutcome = RegisterSucceeds | RegisterFails(cause: Cause, isRegistered: bool)

  /** The pipeline initialiser's role: a plain client initialiser, or the
      server acceptor initialiser whose completion the acceptor signals. */
  datatype Role = ClientRole | ServerRole

  /** What `resolveAll` completes with. */
  datatype Resolution = ResolvedTo(addresses: seq<Address>) | ResolutionFailed(cause: Cause)

  /** The resolver obtained for the channel's event loop. `access` fails when
      obtaining or querying the resolver, or the client's `doOnResolve`
      callback, throws synchronously inside `doResolveAndConnect`. */
  datatype Resolver = Resolver(
    access: Outcome,
    isSupported: Address -> bool,
    isResolved: Address -> bool,
    resolveAll: Address -> Resolution,
    doneAtOnce: Address -> bool)

  /** The transport configuration together with the oracles of one call. */
  datatype Env = Env(
    role: Role,
    options: seq<OptionEntry>,
    attrs: seq<AttributeEntry>,
    newChannel: ChannelId -> Outcome,
    setOption: OptionSetter,
    initDone: ChannelId -> Outcome,
    register: ChannelId -> RegisterOutcome,
    connect: ChannelId -> Outcome,
    bind: ChannelId -> Outcome,
    bindAddress: Option<ChannelId -> Address>,
    resolver: Resolver)

  /** The resolver bypass: an unsupported or already resolved address is
      connected to as it is. */
  predicate Bypasses(r: Resolver, remote: Address)
  {
    !r.isSupported(remote) || r.isResolved(remote)
  }

  /** A successful resolution that is actually consulted yields at least one
      address. On an empty list `doConnect` calls `addresses.get(0)` inside an
      event-loop task, which throws there, so the promise never completes;
      that outcome is outside the model. */
  predicate ResolvesNonEmpty(r: Resolver, remote: Address)
  {
    (r.access.Succeeds? && !Bypasses(r, remote) && r.resolveAll(remote).ResolvedTo?)
    ==> |r.resolveAll(remote).addresses| > 0
  }
}
