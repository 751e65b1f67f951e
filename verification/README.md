# TransportConnector, modelled in Dafny

A model of reactor-netty's `TransportConnector`: the code that turns a
transport configuration into a live Netty channel delivered through a
`Mono<Channel>`. It covers `bind`, `connect` and the three stages they are
built from, and the completion cell they all report through:

- **`doInitAndRegister`**: create a channel with the factory, apply the channel
  options (skipping `SO_REUSEADDR` and `TCP_NODELAY` on domain sockets, never
  aborting on an unknown or throwing option), set the attributes, run the
  initialiser (a server acceptor signals its own completion), and register.
  Every failure cleans up: an initialiser failure force-closes the channel,
  and a registration failure closes it gracefully or forcibly depending on
  `isRegistered()`.
- **`doResolveAndConnect`**: bypass the resolver for unsupported or already
  resolved addresses, otherwise `resolveAll`. Resolution may be complete at
  once or complete later. A resolution failure closes the channel.
- **`doConnect`**: connect to `addresses[index]`, optionally from a supplied
  local address. On failure it closes the channel and fails the promise. The
  failure is the internal `RetryConnectException` (carrying the whole list)
  while addresses remain, and the connect cause otherwise.
- **`connect`**: the fallback loop. After a `RetryConnectException`, it
  re-subscribes a deferred "set up a fresh channel and connect it to
  `addresses[cursor]`" under `Retry.max(N - 1)`. The retry is filtered to that
  exception, and the cursor starts at 1 and advances before each retry.
- **`bind`**: set up a channel and bind it; a failed bind closes it.
- **`MonoChannelPromise` / `ChannelPromise`**: a single-assignment result slot
  (unset, SUCCESS or a cause) written by a compare-and-set, fused with a Mono
  that replays the outcome to a late subscriber or pushes it to an attached
  one.

Collaborators (channel factory, option setter, initialiser completion,
registration, connect, bind, bind-address supplier, resolver) are oracles in
an `Env` value, indexed by channel id. Channels are numbered by creation
round within one call: the channel for connect attempt k is channel k. Each
stage returns a `Step`: the result the Mono delivers, together with the trace
of actions performed on channels. The trace records creations, option and
attribute settings, registrations, connect and bind attempts, and graceful or
forcible closes. The properties are stated over three views of that trace:
channels created, channels closed and addresses tried.

Files:

- `transport_types.dfy` (addresses, errors, actions, trace views)
- `channel_cell.dfy` (the promise/Mono cell)
- `channel_options.dfy` (option and attribute loops)
- `collaborators.dfy` (the oracles)
- `init_register.dfy`
- `connector.dfy` (doConnect, doResolveAndConnect, the retry loop, connect, bind)
- `connector_properties.dfy` (end-to-end properties)

Not every failure closes the channel. An exception thrown synchronously
while obtaining or querying the resolver (the `catch` of
`doResolveAndConnect`) returns `Mono.error` without closing the channel that
`doInitAndRegister` created. The model does the same, and
`ConnectorProperties.ResolverThrowLeavesChannelOpen` states it.

## Model

| member | source | states |
|---|---|---|
| ChannelCell.NewCell | reactor-netty-core/src/main/java/reactor/netty/transport/TransportConnector.java:431-434 | a new promise is bound to its channel, is not done, has no subscriber and has emitted nothing |
| ChannelCell.TrySuccess | reactor-netty-core/src/main/java/reactor/netty/transport/TransportConnector.java:573-583 | the call wins exactly when the slot was still unset; a win stores SUCCESS and sends onNext(channel) then onComplete to the attached subscriber, if any; a loss leaves the cell untouched |
| ChannelCell.TryFailure | reactor-netty-core/src/main/java/reactor/netty/transport/TransportConnector.java:562-571 | the call wins exactly when the slot was still unset; a win stores the cause and sends one onError to the attached subscriber, if any; a loss leaves the cell untouched |
| ChannelCell.SetSuccess | reactor-netty-core/src/main/java/reactor/netty/transport/TransportConnector.java:551-555 | `setSuccess` is `trySuccess` with the verdict dropped: afterwards the promise is done; a pending promise stores SUCCESS and sends onNext(channel) then onComplete to the attached subscriber, if any, keeping that subscriber; an already done promise is left as it was |
| ChannelCell.SetFailure | reactor-netty-core/src/main/java/reactor/netty/transport/TransportConnector.java:545-549 | `setFailure` is `tryFailure` with the verdict dropped: afterwards the promise is done; a pending promise stores the cause and sends one onError to the attached subscriber, if any, keeping that subscriber; an already done promise is left as it was |
| ChannelCell.Subscribe | reactor-netty-core/src/main/java/reactor/netty/transport/TransportConnector.java:463-477 | subscribing records the subscriber, sends onSubscribe, then replays an already written outcome; the slot is not changed |
| ChannelCell.Cancel | reactor-netty-core/src/main/java/reactor/netty/transport/TransportConnector.java:436-441 | cancelling only asks the channel to close: the slot, the subscriber and the signals are unchanged, so the promise never reports itself cancelled (even though the promise's `cancel()` answers `true`) |
| ChannelCell.CauseOf | reactor-netty-core/src/main/java/reactor/netty/transport/TransportConnector.java:502-506 | `cause()` returns a value exactly when the slot holds a failure, and then it is that failure |
| ChannelCell.Settled | reactor-netty-core/src/main/java/reactor/netty/transport/TransportConnector.java:468-475 | a written slot delivers the channel exactly when it holds SUCCESS, and otherwise delivers its cause |
| ChannelCell.StatusQueries | reactor-netty-core/src/main/java/reactor/netty/transport/TransportConnector.java:528-543 | done iff SUCCESS or a cause is stored; `isFailed` is the negation of `isSuccess`, so it also holds while the promise is pending |
| ChannelCell.ResolvedIsFinal | reactor-netty-core/src/main/java/reactor/netty/transport/TransportConnector.java:562-583 | once written, no sequence of tries, subscriptions or cancellations changes the slot or wins a try, and without a new subscription no signal is emitted |
| ChannelCell.ExactlyOnce | reactor-netty-core/src/main/java/reactor/netty/transport/TransportConnector.java:562-583 | from an unset slot, the first try of any sequence wins and fixes the slot, and exactly one try wins overall |
| ChannelCell.SignalsCoherent | reactor-netty-core/src/main/java/reactor/netty/transport/TransportConnector.java:463-477 | with at most one subscription, the emitted signals always equal onSubscribe followed by the replay of the current slot, whatever the interleaving |
| ChannelCell.NotificationOrder | reactor-netty-core/src/main/java/reactor/netty/transport/TransportConnector.java:463-477 | from a new promise, a subscriber sees exactly onSubscribe; onSubscribe, onNext, onComplete on success; or onSubscribe, onError on failure |
| ChannelCell.SubscribeOrderIrrelevant | reactor-netty-core/src/main/java/reactor/netty/transport/TransportConnector.java:463-477 | subscribing before or after the resolving call yields the same signals |
| ChannelOptions.Attempted | reactor-netty-core/src/main/java/reactor/netty/transport/TransportConnector.java:209-213 | never more options are kept for trying than are configured; which ones are kept, exactly the configured options that are not SO_REUSEADDR or TCP_NODELAY on a domain socket, is stated by `ChannelOptions.AttemptedMembership` |
| ChannelOptions.AttemptedMembership | reactor-netty-core/src/main/java/reactor/netty/transport/TransportConnector.java:209-213 | an option is tried iff it is configured and is not SO_REUSEADDR or TCP_NODELAY on a domain socket |
| ChannelOptions.OptionActions | reactor-netty-core/src/main/java/reactor/netty/transport/TransportConnector.java:208-224 | at most one attempt per configured option; that each non-skipped option is tried with its own value, and every attempt comes from such an option, is stated by `ChannelOptions.EveryOptionTried` |
| ChannelOptions.SetChannelOptions | reactor-netty-core/src/main/java/reactor/netty/transport/TransportConnector.java:208-224 | the loop performs one attempt per non-skipped option, in configuration order, and never more attempts than options |
| ChannelOptions.AttributeActions | reactor-netty-core/src/main/java/reactor/netty/transport/TransportConnector.java:195-199 | exactly one setting per configured attribute; the keys and values those settings leave on the channel are stated by `ChannelOptions.AttributesHoldConfiguredValues` |
| ChannelOptions.SetAttributes | reactor-netty-core/src/main/java/reactor/netty/transport/TransportConnector.java:195-199 | the loop performs one `attr(key).set(value)` per attribute, in order; afterwards the channel holds exactly the configured keys, and, keys being distinct as in a Map, each is bound to its configured value |
| ChannelOptions.AttributesHoldConfiguredValues | reactor-netty-core/src/main/java/reactor/netty/transport/TransportConnector.java:195-199 | replaying the attribute settings yields a map whose keys are exactly the configured keys and, for distinct keys, whose value at each key is the configured value |
| ChannelOptions.EveryOptionTried | reactor-netty-core/src/main/java/reactor/netty/transport/TransportConnector.java:209-223 | every non-skipped option is tried with its own value, and every attempt comes from such an option |
| ChannelOptions.AnswersDoNotStopTheLoop | reactor-netty-core/src/main/java/reactor/netty/transport/TransportConnector.java:214-222 | which options are tried, and in what order, does not depend on the channel answering unknown or throwing |
| InitRegister.ConfigureTrace | reactor-netty-core/src/main/java/reactor/netty/transport/TransportConnector.java:282-304 | configuring a new channel (`Configure`: creation, then the options, then the attributes) creates exactly that channel, closes none and tries no address; afterwards the channel holds exactly the configured attribute keys, and with distinct keys each is bound to its configured value |
| InitRegister.InitAndRegister | reactor-netty-core/src/main/java/reactor/netty/transport/TransportConnector.java:274-344 | set-up delivers channel ch iff the factory, the server initialiser (when on a server) and registration all succeed; every failure is the collaborator's exception; a factory failure does nothing at all |
| InitRegister.CleanupTable | reactor-netty-core/src/main/java/reactor/netty/transport/TransportConnector.java:318-340 | an initialiser failure ends with a forcible close; a registration failure ends with a graceful close if the channel reports itself registered and a forcible one otherwise; success ends with registration |
| InitRegister.InitRegisterTrace | reactor-netty-core/src/main/java/reactor/netty/transport/TransportConnector.java:282-340 | set-up creates its channel unless the factory throws, closes it exactly when set-up fails, and makes no connect attempt |
| InitRegister.ConfigurationNeverAborts | reactor-netty-core/src/main/java/reactor/netty/transport/TransportConnector.java:300-318 | what the channel answers to the options never changes the outcome of set-up |
| Connector.LocalFor | reactor-netty-core/src/main/java/reactor/netty/transport/TransportConnector.java:241-247 | a local address is used exactly when a bind-address supplier is configured |
| Connector.DoConnect | reactor-netty-core/src/main/java/reactor/netty/transport/TransportConnector.java:227-272 | the attempt targets `addresses[index]`, settles the promise, succeeds iff the connect does, and on failure closes the channel and fails with the retry marker iff a later address exists, otherwise with the connect cause |
| Connector.Attempt | reactor-netty-core/src/main/java/reactor/netty/transport/TransportConnector.java:354-358 | a fresh promise plus doConnect delivers channel ch iff the connect succeeds; it tries exactly one address and closes the channel exactly on failure |
| Connector.ResolvedNow | reactor-netty-core/src/main/java/reactor/netty/transport/TransportConnector.java:392-404 | a resolution already complete fails with its cause after closing the channel, or connects to the first resolved address; the result is the channel iff that connect succeeds, and a failed connect raises the retry marker iff a second address exists |
| Connector.ResolvedLater | reactor-netty-core/src/main/java/reactor/netty/transport/TransportConnector.java:406-417 | a resolution completing later, through a promise made up front, has the same outcome and trace as one already complete: a resolution failure closes the channel, a success connects to the first resolved address |
| Connector.ResolveAndConnect | reactor-netty-core/src/main/java/reactor/netty/transport/TransportConnector.java:347-422 | it never creates a channel; it tries at most the first candidate; it closes the channel on every failure except a throwing resolver; a retry marker carries the full candidate list of at least two addresses |
| Connector.Round | reactor-netty-core/src/main/java/reactor/netty/transport/TransportConnector.java:175-181 | a retry round delivers channel `index` iff its set-up and its connect both succeed; a failed connect after a good set-up raises the marker iff more addresses remain |
| Connector.RetryLoop | reactor-netty-core/src/main/java/reactor/netty/transport/TransportConnector.java:172-185 | a retry round that succeeds delivers a channel numbered from the cursor onwards, and the retry marker never leaves the loop; the budget, channel and address accounting are stated by `ConnectorProperties.RetryLoopAccounting` and `ConnectorProperties.RetryLoopFallback` |
| Connector.Opening | reactor-netty-core/src/main/java/reactor/netty/transport/TransportConnector.java:169-171 | the first stage delivers channel 0 or a thrown cause, and raises the marker only after a good set-up and a working resolver, with the candidate list |
| Connector.Connect | reactor-netty-core/src/main/java/reactor/netty/transport/TransportConnector.java:159-186 | the internal retry marker never reaches the caller of `connect`; what it creates, closes and tries is stated by `ConnectorProperties.ConnectAccounting` and `ConnectorProperties.ConnectFallback` |
| Connector.Bind | reactor-netty-core/src/main/java/reactor/netty/transport/TransportConnector.java:77-101 | bind delivers channel 0 iff set-up and bind succeed; a failed bind fails with the bind cause after a graceful close of the channel |
| ConnectorProperties.ResolveBranchesAgree | reactor-netty-core/src/main/java/reactor/netty/transport/TransportConnector.java:392-417 | whether resolution is complete at once or completes later makes no observable difference |
| ConnectorProperties.RoundTrace | reactor-netty-core/src/main/java/reactor/netty/transport/TransportConnector.java:175-181 | a round creates its channel unless the factory throws, closes it unless the round succeeds, and tries `addresses[index]` only after a good set-up |
| ConnectorProperties.OpeningTrace | reactor-netty-core/src/main/java/reactor/netty/transport/TransportConnector.java:170-171 | the first stage creates channel 0 unless the factory throws, closes it on every failure but a throwing resolver, and tries at most the first candidate |
| ConnectorProperties.OpeningTraceAfterSetup | reactor-netty-core/src/main/java/reactor/netty/transport/TransportConnector.java:392-421 | once channel 0 is set up, resolving and connecting keeps it the only channel, closes it unless the connect succeeds or the resolver throws, and tries only the first resolved candidate |
| ConnectorProperties.RetryLoopAccounting | reactor-netty-core/src/main/java/reactor/netty/transport/TransportConnector.java:172-185 | the retry loop never exhausts its budget of N - 1 retries nor lets the marker escape; it creates consecutive channels and closes all but the delivered one; it tries a contiguous run of addresses from the cursor |
| ConnectorProperties.RetrySetupFailureEndsLoop | reactor-netty-core/src/main/java/reactor/netty/transport/TransportConnector.java:176-184 | a set-up failure in a retry round is not the marker, so it ends `connect` with that set-up error, with no further address tried and no channel left open |
| ConnectorProperties.ConnectAccounting | reactor-netty-core/src/main/java/reactor/netty/transport/TransportConnector.java:159-186 | `connect` never surfaces the marker; channels are created 0, 1, 2, ...; all are closed except the one delivered, unless the resolver threw; the addresses tried are a prefix of the candidates |
| ConnectorProperties.ResolverThrowLeavesChannelOpen | reactor-netty-core/src/main/java/reactor/netty/transport/TransportConnector.java:419-421 | a throwing resolver fails `connect` with that exception and leaves channel 0 open with no attempt made |
| ConnectorProperties.ResolutionFailureIsTerminal | reactor-netty-core/src/main/java/reactor/netty/transport/TransportConnector.java:392-411 | a failed resolution closes channel 0, makes no connect attempt, and fails with the resolution cause |
| ConnectorProperties.BypassIsSingleAttempt | reactor-netty-core/src/main/java/reactor/netty/transport/TransportConnector.java:354-358 | an unsupported or already resolved address gets exactly one attempt, to itself, and its failure is the connect cause rather than a retry |
| ConnectorProperties.OpeningFallback | reactor-netty-core/src/main/java/reactor/netty/transport/TransportConnector.java:392-417 | after a good set-up, the first stage connects to the first candidate, and on failure raises the marker iff there are at least two candidates |
| ConnectorProperties.RetryLoopFallback | reactor-netty-core/src/main/java/reactor/netty/transport/TransportConnector.java:174-184 | when attempts from the cursor fail until the one at k succeeds, the loop delivers channel k; when all fail, it fails with the last cause; in both cases it tries the addresses in order from the cursor |
| ConnectorProperties.ConnectFallback | reactor-netty-core/src/main/java/reactor/netty/transport/TransportConnector.java:159-186 | with N candidates, if attempts 0..k-1 fail and attempt k succeeds, `connect` delivers channel k having created k+1 channels, closed the first k and tried the first k+1 addresses in order; if all fail, it fails with the last cause having created, closed and tried all N |
| ConnectorProperties.BindTrace | reactor-netty-core/src/main/java/reactor/netty/transport/TransportConnector.java:83-101 | bind makes no connect attempt and closes the channel it created exactly when it fails |

## Left out

- I/O and threads: every event-loop hand-off (`execute`, `inEventLoop`) is taken as running at once, in program order. The compare-and-set on the result slot is a sequential check-and-set. Races between a late subscription and a concurrent resolution are not modelled.
- Futures that never complete: every collaborator outcome is taken as settled when its listener runs.
- `request(n)`: it does nothing in the source, so it has no counterpart.
- `getNow()` and `asFuture()` throwing `UnsupportedOperationException`, and the constant answers of `isCancellable`, `isCancelled` and `setUncancellable`: not modelled.
- `ContextContainer` (`save`, `restoreThreadLocalValues`), logging, and the `doOnResolveError` and `doAfterResolve` callbacks: left out because they run as listeners or bookkeeping and do not affect channels or results.
- The `doOnResolve` callback is not a separate collaborator. It runs synchronously inside the `try` of `doResolveAndConnect`, so a throw from it ends like a throwing resolver: `Mono.error`, no connect attempt, channel 0 left open. The model folds it into the resolver's `access` outcome, and `ConnectorProperties.ResolverThrowLeavesChannelOpen` covers it.
- `channel.pipeline().addLast(channelInitializer)` is taken never to throw. A throw there would end the event-loop task of `doInitAndRegister`, so the promise would never complete and the channel would stay open; that outcome is not modelled.
- The resolver's algorithm and the channel factories: both are oracles. The acceptor's auto-read task is not modelled. The client/server distinction is a role tag rather than an `instanceof` test on the initialiser.
- Argument null checks (`requireNonNull`) and a supplier returning null: the model takes every argument as present.
- Connector.ResolveAndConnect: requires a consulted, successful resolution to return at least one address, and so do `Opening`, `Connect` and the properties about them. On an empty list the source's `addresses.get(0)` throws inside an event-loop task and the promise never completes; the model does not describe that outcome.
- What a channel does when asked to close after cancellation is not modelled: `Cancel` only counts the close requests.
- ChannelCell.Cancel: the boolean the promise's `cancel()` returns is not modelled. That method answers `true` while `isCancelled()` stays `false` and the slot is untouched; the model states only the second half, that the promise never reports itself cancelled.
- `Retry.max` is modelled by its retry counter and its exhausted error; the proofs show that error is never reached from `connect`.
