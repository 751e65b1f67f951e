/**
 Creating, configuring, initialising and registering one channel. Each stage
 can fail and then short-circuits the rest: a factory failure leaves no
 channel behind; an initialisation failure force-closes the channel; a
 registration failure closes it gracefully if it reports itself registered
 and forcibly otherwise. Event-loop scheduling is taken as running in order.
 */
module InitRegister {
  import opened TransportTypes
  import opened ChannelCell
  import opened ChannelOptions
  import opened Collaborators

  /** Every stage of setting up channel `ch` succeeds. */
  predicate SetupSucceeds(env: Env, ch: ChannelId)
  {
    && env.newChannel(ch).Succeeds?
    && (env.role.ServerRole? ==> env.initDone(ch).Succeeds?)
    && env.register(ch).RegisterSucceeds?
  }

  /** What a new channel goes through before initialisation: creation, then
      the options, then the attributes. */
  function Configure(env: Env, ch: ChannelId, isDomainSocket: bool): seq<Action>
  {
    [Created(ch), Configured(ch, OptionActions(ch, env.options, isDomainSocket, env.setOption),
                                 AttributeActions(ch, env.attrs))]
  }

  /** Configuring a new channel creates exactly that channel, closes none and
      tries no address; its attribute settings leave every configured key
      bound to its configured value. */
  lemma ConfigureTrace(env: Env, ch: ChannelId, isDomainSocket: bool)
    ensures var r := Configure(env, ch, isDomainSocket);
            && CreatedIn(r) == [ch] && ClosedIn(r) == [] && TargetsIn(r) == []
            && AttributeValues(r[1].attributes).Keys == (set e | e in env.attrs :: e.0)
            && (DistinctKeys(env.attrs) ==>
                  forall e :: e in env.attrs ==> AttributeValues(r[1].attributes)[e.0] == e.1)
  {
    var r := Configure(env, ch, isDomainSocket);
    assert r[1..] == [r[1]];
    SingleViews(r[1]);
    AttributesHoldConfiguredValues(ch, env.attrs);
  }

  /** `doInitAndRegister`: the Mono of the set-up channel `ch`. */
  function InitAndRegister(env: Env, ch: ChannelId, isDomainSocket: bool): (r: Step)
    ensures r.result.Ok? <==> SetupSucceeds(env, ch)
    ensures r.result.Ok? ==> r.result.value == ch
    ensures r.result.Err? ==> r.result.error.Thrown?
    ensures env.newChannel(ch).Fails? ==> r == Step(Err(Thrown(env.newChannel(ch).cause)), [])
  {
    if env.newChannel(ch).Fails? then
      // The factory threw: Mono.error, and there is no channel to close.
      Step(Err(Thrown(env.newChannel(ch).cause)), [])
    else
      var configured := Configure(env, ch, isDomainSocket);
      // A client initialiser completes at once; the acceptor's is signalled later.
      var initFuture := if env.role.ServerRole? then env.initDone(ch) else Succeeds;
      var promise := NewCell(ch);
      if initFuture.Fails? then
        Step(Settled(SetFailure(promise, Thrown(initFuture.cause))), configured + [Closed(ch, Forcible)])
      else
        match env.register(ch)
        case RegisterSucceeds =>
          Step(Settled(SetSuccess(promise)), configured + [Registered(ch)])
        case RegisterFails(cause, isRegistered) =>
          var kind := if isRegistered then Graceful else Forcible;
          Step(Settled(SetFailure(promise, Thrown(cause))), configured + [Closed(ch, kind)])
  }

  /** The failure and clean-up table: which close, if any, ends the set-up
      trace, and which cause the Mono fails with. */
  lemma CleanupTable(env: Env, ch: ChannelId, isDomainSocket: bool)
    requires env.newChannel(ch).Succeeds?
    ensures var r := InitAndRegister(env, ch, isDomainSocket);
            && |r.actions| > 0 && r.actions[0] == Created(ch)
            && (env.role.ServerRole? && env.initDone(ch).Fails? ==>
                  r.actions[|r.actions| - 1] == Closed(ch, Forcible)
                  && r.result == Err(Thrown(env.initDone(ch).cause)))
            && ((env.role.ClientRole? || env.initDone(ch).Succeeds?) ==>
                  match env.register(ch)
                  case RegisterSucceeds =>
                    r.actions[|r.actions| - 1] == Registered(ch) && r.result == Ok(ch)
                  case RegisterFails(cause, isRegistered) =>
                    r.actions[|r.actions| - 1] == Closed(ch, if isRegistered then Graceful else Forcible)
                    && r.result == Err(Thrown(cause)))
  {
  }

  /** Set-up creates channel `ch` unless the factory fails, never attempts a
      connect, and closes the channel exactly when it fails. */
  lemma InitRegisterTrace(env: Env, ch: ChannelId, isDomainSocket: bool)
    ensures var r := InitAndRegister(env, ch, isDomainSocket);
            && CreatedIn(r.actions) == (if env.newChannel(ch).Succeeds? then [ch] else [])
            && ClosedIn(r.actions) == (if r.result.Ok? then [] else CreatedIn(r.actions))
            && TargetsIn(r.actions) == []
  {
    if env.newChannel(ch).Succeeds? {
      var r := InitAndRegister(env, ch, isDomainSocket);
      var configured := Configure(env, ch, isDomainSocket);
      ConfigureTrace(env, ch, isDomainSocket);
      assert r.actions == configured + [r.actions[2]];
      ViewsAppend(configured, [r.actions[2]]);
    }
  }

  /** Option answers never abort set-up: whatever the channel says to each
      option, initialisation and registration go on to the same result. */
  lemma ConfigurationNeverAborts(env: Env, ch: ChannelId, isDomainSocket: bool, answers: OptionSetter)
    ensures InitAndRegister(env.(setOption := answers), ch, isDomainSocket).result
         == InitAndRegister(env, ch, isDomainSocket).result
  {
  }
}
