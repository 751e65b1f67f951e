/**
 The connector's entry points and the stages they compose: one connect
 attempt on a channel, the resolve-or-bypass decision, the retry loop that
 falls back through the candidate addresses on fresh channels, and bind.
 */
module Connector {
  import opened TransportTypes
  import opened ChannelCell
  import opened Collaborators
  import opened InitRegister

  /** The local address an attempt on `ch` binds to: present exactly when a
      bind-address supplier is configured. */
  function LocalFor(env: Env, ch: ChannelId): (local: Option<Address>)
    ensures local.Some? <==> env.bindAddress.Some?
  {
    match env.bindAddress
    case None => None
    case Some(supply) => Some(supply(ch))
  }

  /** `doConnect`: connect the promise's channel to `addresses[index]`. On
      failure the channel is closed and the promise fails with the retry
      marker while addresses remain, with the connect cause otherwise. */
  function DoConnect(env: Env, addresses: seq<Address>, index: nat, promise: Cell): (r: (Cell, seq<Action>))
    requires index < |addresses|
    ensures r.0.channel == promise.channel && IsDone(r.0)
    ensures |r.1| > 0 && r.1[0] == ConnectAttempt(promise.channel, addresses[index], LocalFor(env, promise.channel))
    ensures !IsDone(promise) ==> (IsSuccess(r.0) <==> env.connect(promise.channel).Succeeds?)
    ensures !IsDone(promise) && r.0.slot.Failed? ==>
              if index + 1 < |addresses| then r.0.slot.cause == RetryConnect(addresses)
              else r.0.slot.cause == Thrown(env.connect(promise.channel).cause)
    ensures CreatedIn(r.1) == [] && TargetsIn(r.1) == [addresses[index]]
    ensures ClosedIn(r.1) == if env.connect(promise.channel).Fails? then [promise.channel] else []
  {
    var ch := promise.channel;
    var attempt := ConnectAttempt(ch, addresses[index], LocalFor(env, ch));
    SingleViews(attempt);
    match env.connect(ch)
    case Succeeds => (SetSuccess(promise), [attempt])
    case Fails(cause) =>
      var closed := [attempt, Closed(ch, Graceful)];
      assert closed == [attempt] + [Closed(ch, Graceful)];
      ViewsAppend([attempt], [Closed(ch, Graceful)]);
      SingleViews(Closed(ch, Graceful));
      if index + 1 < |addresses| then (SetFailure(promise, RetryConnect(addresses)), closed)
      else (SetFailure(promise, Thrown(cause)), closed)
  }

  /** One connect attempt at `index` on channel `ch`, through a fresh promise. */
  function Attempt(env: Env, addresses: seq<Address>, index: nat, ch: ChannelId): (r: Step)
    requires index < |addresses|
    ensures r.result.Ok? <==> env.connect(ch).Succeeds?
    ensures r.result.Ok? ==> r.result.value == ch
    ensures r.result.Err? && index + 1 < |addresses| ==> r.result.error == RetryConnect(addresses)
    ensures r.result.Err? && index + 1 == |addresses| ==> r.result.error == Thrown(env.connect(ch).cause)
    ensures CreatedIn(r.actions) == [] && TargetsIn(r.actions) == [addresses[index]]
    ensures ClosedIn(r.actions) == if r.result.Err? then [ch] else []
  {
    var (promise, actions) := DoConnect(env, addresses, index, NewCell(ch));
    Step(Settled(promise), actions)
  }

  /** The candidate list the connect attempts walk through: the address itself
      when the resolver is bypassed, the resolved list otherwise, and none when
      the resolver throws or resolution fails. */
  function Candidates(r: Resolver, remote: Address): Option<seq<Address>>
  {
    if r.access.Fails? then None
    else if Bypasses(r, remote) then Some([remote])
    else match r.resolveAll(remote)
      case ResolvedTo(addresses) => Some(addresses)
      case ResolutionFailed(_) => None
  }

  /** What a settled resolution leads to on channel `ch`: a failure closes
      the channel and fails with the resolution cause; a success makes one
      attempt at index 0, which fails with the retry marker iff a second
      address exists. */
  predicate ConnectsAfterResolution(env: Env, ch: ChannelId, resolution: Resolution, r: Step)
    requires resolution.ResolvedTo? ==> |resolution.addresses| > 0
  {
    && (r.result.Ok? <==> resolution.ResolvedTo? && env.connect(ch).Succeeds?)
    && (r.result.Ok? ==> r.result.value == ch)
    && (r.result.Err? ==> r.result.error == match resolution
          case ResolutionFailed(cause) => Thrown(cause)
          case ResolvedTo(addresses) =>
            if |addresses| > 1 then RetryConnect(addresses) else Thrown(env.connect(ch).cause))
    && CreatedIn(r.actions) == []
    && ClosedIn(r.actions) == (if r.result.Err? then [ch] else [])
    && TargetsIn(r.actions) == (if resolution.ResolvedTo? then [resolution.addresses[0]] else [])
  }

  /** Resolution already complete when `resolveAll` returns: a failure closes
      the channel and becomes Mono.error; a success connects at index 0. */
  function ResolvedNow(env: Env, ch: ChannelId, resolution: Resolution): (r: Step)
    requires resolution.ResolvedTo? ==> |resolution.addresses| > 0
    ensures ConnectsAfterResolution(env, ch, resolution, r)
  {
    SingleViews(Closed(ch, Graceful));
    match resolution
    case ResolutionFailed(cause) => Step(Err(Thrown(cause)), [Closed(ch, Graceful)])
    case ResolvedTo(addresses) => Attempt(env, addresses, 0, ch)
  }

  /** Resolution completing later, in a listener on a promise made up front:
      a failure closes the channel and fails the promise; a success connects
      at index 0 through that promise. */
  function ResolvedLater(env: Env, ch: ChannelId, resolution: Resolution): (r: Step)
    requires resolution.ResolvedTo? ==> |resolution.addresses| > 0
    ensures ConnectsAfterResolution(env, ch, resolution, r)
  {
    var promise := NewCell(ch);
    SingleViews(Closed(ch, Graceful));
    match resolution
    case ResolutionFailed(cause) =>
      Step(Settled(TryFailure(promise, Thrown(cause)).0), [Closed(ch, Graceful)])
    case ResolvedTo(addresses) =>
      var (settled, actions) := DoConnect(env, addresses, 0, promise);
      Step(Settled(settled), actions)
  }

  /** `doResolveAndConnect` on the set-up channel `ch`. */
  function ResolveAndConnect(env: Env, ch: ChannelId, remote: Address): (r: Step)
    requires ResolvesNonEmpty(env.resolver, remote)
    ensures r.result.Err? && r.result.error.RetryConnect? ==>
              Candidates(env.resolver, remote) == Some(r.result.error.addresses)
              && |r.result.error.addresses| >= 2
    ensures r.result.Err? ==> r.result.error.Thrown? || r.result.error.RetryConnect?
    ensures r.result.Ok? ==> r.result.value == ch
    ensures CreatedIn(r.actions) == []
    ensures ClosedIn(r.actions) == if r.result.Err? && env.resolver.access.Succeeds? then [ch] else []
    ensures TargetsIn(r.actions) == match Candidates(env.resolver, remote)
                                    case None => []
                                    case Some(candidates) => [candidates[0]]
  {
    var resolver := env.resolver;
    if resolver.access.Fails? then
      // Obtaining or querying the resolver threw: Mono.error, the channel is not closed.
      Step(Err(Thrown(resolver.access.cause)), [])
    else if Bypasses(resolver, remote) then
      Attempt(env, [remote], 0, ch)
    else
      var resolution := resolver.resolveAll(remote);
      SingleViews(Closed(ch, Graceful));
      if resolver.doneAtOnce(remote) then ResolvedNow(env, ch, resolution)
      else ResolvedLater(env, ch, resolution)
  }

  /** One round of the retry loop: set up a fresh channel `index`, then
      connect it to `addresses[index]`. A set-up failure ends the round as it is. */
  function Round(env: Env, isDomainSocket: bool, addresses: seq<Address>, index: nat): (r: Step)
    requires index < |addresses|
    ensures r.result.Ok? <==> SetupSucceeds(env, index) && env.connect(index).Succeeds?
    ensures r.result.Ok? ==> r.result.value == index
    ensures r.result.Err? ==> r.result.error.Thrown? || r.result.error == RetryConnect(addresses)
    ensures r.result == Err(RetryConnect(addresses)) ==> index + 1 < |addresses|
    ensures SetupSucceeds(env, index) && env.connect(index).Fails? ==>
              r.result == if index + 1 < |addresses| then Err(RetryConnect(addresses))
                          else Err(Thrown(env.connect(index).cause))
  {
    var setup := InitAndRegister(env, index, isDomainSocket);
    if setup.result.Err? then setup
    else
      var attempt := Attempt(env, addresses, index, index);
      Step(attempt.result, setup.actions + attempt.actions)
  }

  /** The retry loop: rounds on fresh channels, the cursor advanced before
      each retry; only the retry marker leads to another round, and only
      while the retry budget of |addresses| - 1 allows. */
  function RetryLoop(env: Env, isDomainSocket: bool, addresses: seq<Address>, index: nat, retries: nat): (r: Step)
    requires 0 < index < |addresses|
    ensures r.result.Ok? ==> index <= r.result.value < |addresses|
    ensures r.result.Err? ==> !r.result.error.RetryConnect?
    decreases |addresses| - retries
  {
    var round := Round(env, isDomainSocket, addresses, index);
    if round.result.Err? && round.result.error.RetryConnect? then
      if retries >= |addresses| - 1 then Step(Err(RetriesExhausted(round.result.error)), round.actions)
      else
        var rest := RetryLoop(env, isDomainSocket, addresses, index + 1, retries + 1);
        Step(rest.result, round.actions + rest.actions)
    else
      // Success, or an error that is not the marker: propagated as it is.
      round
  }

  /** The first stage of `connect`: set up channel 0, then resolve and
      connect it. */
  function Opening(env: Env, remote: Address): (r: Step)
    requires ResolvesNonEmpty(env.resolver, remote)
    ensures r.result.Ok? ==> r.result.value == 0
    ensures r.result.Err? ==> r.result.error.Thrown? || r.result.error.RetryConnect?
    ensures r.result.Err? && r.result.error.RetryConnect? ==>
              && SetupSucceeds(env, 0) && env.resolver.access.Succeeds?
              && Candidates(env.resolver, remote) == Some(r.result.error.addresses)
              && |r.result.error.addresses| >= 2
  {
    var first := InitAndRegister(env, 0, remote.DomainSocketAddress?);
    if first.result.Err? then first
    else
      var attempt := ResolveAndConnect(env, 0, remote);
      Step(attempt.result, first.actions + attempt.actions)
  }

  /** `connect`: the opening stage, and on a retry marker the retry loop over
      the marker's list from cursor 1 on fresh channels. */
  function Connect(env: Env, remote: Address): (r: Step)
    requires ResolvesNonEmpty(env.resolver, remote)
    ensures r.result.Err? ==> !r.result.error.RetryConnect?
  {
    var opening := Opening(env, remote);
    if opening.result.Err? && opening.result.error.RetryConnect? then
      var rest := RetryLoop(env, remote.DomainSocketAddress?, opening.result.error.addresses, 1, 0);
      Step(rest.result, opening.actions + rest.actions)
    else
      opening
  }

  /** `bind`: set up channel 0, then bind it; a failed bind closes the channel
      and fails with the bind cause. */
  function Bind(env: Env, bindAddress: Address, isDomainSocket: bool): (r: Step)
    ensures r.result.Ok? <==> SetupSucceeds(env, 0) && env.bind(0).Succeeds?
    ensures r.result.Ok? ==> r.result.value == 0
    ensures r.result.Err? ==> r.result.error.Thrown?
    ensures SetupSucceeds(env, 0) && env.bind(0).Fails? ==>
              r.result == Err(Thrown(env.bind(0).cause))
              && |r.actions| > 0 && r.actions[|r.actions| - 1] == Closed(0, Graceful)
  {
    var setup := InitAndRegister(env, 0, isDomainSocket);
    if setup.result.Err? then setup
    else
      var ch := setup.result.value;
      var promise := NewCell(ch);
      var actions := setup.actions + [BindAttempt(ch, bindAddress)];
      match env.bind(ch)
      case Succeeds => Step(Settled(SetSuccess(promise)), actions)
      case Fails(cause) => Step(Settled(SetFailure(promise, Thrown(cause))), actions + [Closed(ch, Graceful)])
  }
}
