/**
 What `connect` and `bind` promise their callers, stated over the traces of
 channels created, channels closed and addresses tried.
 */
module ConnectorProperties {
  import opened TransportTypes
  import opened ChannelCell
  import opened Collaborators
  import opened InitRegister
  import opened Connector

  /** Whether `resolveAll` completed before returning or later makes no
      observable difference. */
  lemma ResolveBranchesAgree(env: Env, ch: ChannelId, resolution: Resolution)
    requires resolution.ResolvedTo? ==> |resolution.addresses| > 0
    ensures ResolvedNow(env, ch, resolution) == ResolvedLater(env, ch, resolution)
  {
  }

  lemma RangeCons(lo: nat, hi: nat)
    requires lo < hi
    ensures [lo] + Range(lo + 1, hi) == Range(lo, hi)
  {
  }

  /** One round creates its channel unless the factory fails, closes it
      unless the round succeeds, and tries `addresses[index]` only if set-up
      succeeded. */
  lemma RoundTrace(env: Env, isDomainSocket: bool, addresses: seq<Address>, index: nat)
    requires index < |addresses|
    ensures var r := Round(env, isDomainSocket, addresses, index);
            && CreatedIn(r.actions) == (if env.newChannel(index).Succeeds? then [index] else [])
            && ClosedIn(r.actions) == (if r.result.Ok? then [] else CreatedIn(r.actions))
            && TargetsIn(r.actions) == (if SetupSucceeds(env, index) then [addresses[index]] else [])
  {
    var setup := InitAndRegister(env, index, isDomainSocket);
    InitRegisterTrace(env, index, isDomainSocket);
    if setup.result.Ok? {
      ViewsAppend(setup.actions, Attempt(env, addresses, index, index).actions);
    }
  }

  /** The opening stage's trace: channel 0 is created unless the factory
      fails, closed on every failure except a throwing resolver, and at most
      the first candidate is tried. */
  lemma OpeningTrace(env: Env, remote: Address)
    requires ResolvesNonEmpty(env.resolver, remote)
    ensures var r := Opening(env, remote);
            && CreatedIn(r.actions) == (if env.newChannel(0).Succeeds? then [0] else [])
            && ClosedIn(r.actions) == (if r.result.Ok? || (SetupSucceeds(env, 0) && env.resolver.access.Fails?) then []
                                       else CreatedIn(r.actions))
            && TargetsIn(r.actions) == if !SetupSucceeds(env, 0) then [] else
                                       match Candidates(env.resolver, remote)
                                       case None => []
                                       case Some(candidates) => [candidates[0]]
  {
    var first := InitAndRegister(env, 0, remote.DomainSocketAddress?);
    InitRegisterTrace(env, 0, remote.DomainSocketAddress?);
    if first.result.Ok? {
      OpeningTraceAfterSetup(env, remote);
    }
  }

  /** The resolving half of `OpeningTrace`: after a good set-up, channel 0 is
      closed unless the connect succeeds or the resolver throws, and at most
      the first candidate is tried. */
  lemma OpeningTraceAfterSetup(env: Env, remote: Address)
    requires ResolvesNonEmpty(env.resolver, remote)
    requires SetupSucceeds(env, 0)
    ensures var r := Opening(env, remote);
            && CreatedIn(r.actions) == [0]
            && ClosedIn(r.actions) == (if r.result.Ok? || env.resolver.access.Fails? then [] else [0])
            && TargetsIn(r.actions) == match Candidates(env.resolver, remote)
                                       case None => []
                                       case Some(candidates) => [candidates[0]]
  {
    var first := InitAndRegister(env, 0, remote.DomainSocketAddress?);
    InitRegisterTrace(env, 0, remote.DomainSocketAddress?);
    ViewsAppend(first.actions, ResolveAndConnect(env, 0, remote).actions);
  }

  /** After a good set-up, the opening stage is that set-up followed by
      `doResolveAndConnect` on channel 0. */
  lemma OpeningAfterSetup(env: Env, remote: Address)
    requires ResolvesNonEmpty(env.resolver, remote)
    requires SetupSucceeds(env, 0)
    ensures var attempt := ResolveAndConnect(env, 0, remote);
            Opening(env, remote)
              == Step(attempt.result, InitAndRegister(env, 0, remote.DomainSocketAddress?).actions + attempt.actions)
  {
  }

  /** The caller-visible bookkeeping of a stage whose channels are numbered
      from `from`: no retry marker or exhausted budget escapes; channels are
      created consecutively; each is closed, in order, except the delivered one. */
  ghost predicate Accounted(r: Step, from: nat)
  {
    && (r.result.Err? ==> r.result.error.Thrown?)
    && CreatedIn(r.actions) == Range(from, from + |CreatedIn(r.actions)|)
    && (r.result.Ok? ==> CreatedIn(r.actions) == ClosedIn(r.actions) + [r.result.value])
    && (r.result.Err? ==> CreatedIn(r.actions) == ClosedIn(r.actions))
  }

  /** The addresses tried are a contiguous run of `addresses` from `from`:
      in list order, without revisits. */
  ghost predicate TriesRun(r: Step, addresses: seq<Address>, from: nat)
  {
    && from + |TargetsIn(r.actions)| <= |addresses|
    && TargetsIn(r.actions) == addresses[from..from + |TargetsIn(r.actions)|]
  }

  /** A failed round on channel `index` in front of an accounted rest keeps
      the channel bookkeeping. */
  lemma CombineChannels(round: Step, rest: Step, index: nat)
    requires CreatedIn(round.actions) == [index] && ClosedIn(round.actions) == [index]
    requires Accounted(rest, index + 1)
    ensures Accounted(Step(rest.result, round.actions + rest.actions), index)
  {
    var created, closed := CreatedIn(rest.actions), ClosedIn(rest.actions);
    CreatedAppend(round.actions, rest.actions);
    ClosedAppend(round.actions, rest.actions);
    assert CreatedIn(round.actions + rest.actions) == [index] + created;
    assert ClosedIn(round.actions + rest.actions) == [index] + closed;
    RangeCons(index, index + 1 + |created|);
    if rest.result.Ok? {
      assert [index] + created == ([index] + closed) + [rest.result.value];
    }
  }

  /** A round that tried `addresses[index]` in front of a run from index+1
      tries a run from `index`. */
  lemma CombineTries(round: Step, rest: Step, addresses: seq<Address>, index: nat)
    requires index < |addresses|
    requires TargetsIn(round.actions) == [addresses[index]]
    requires TriesRun(rest, addresses, index + 1)
    ensures TriesRun(Step(rest.result, round.actions + rest.actions), addresses, index)
  {
    TargetsAppend(round.actions, rest.actions);
    var t := |TargetsIn(rest.actions)|;
    assert addresses[index..index + 1 + t] == [addresses[index]] + addresses[index + 1..index + 1 + t];
  }

  /** A failed round on channel `index` followed by an accounted rest is accounted. */
  lemma CombineAccounted(round: Step, rest: Step, addresses: seq<Address>, index: nat)
    requires index < |addresses|
    requires CreatedIn(round.actions) == [index] && ClosedIn(round.actions) == [index]
    requires TargetsIn(round.actions) == [addresses[index]]
    requires Accounted(rest, index + 1) && TriesRun(rest, addresses, index + 1)
    ensures Accounted(Step(rest.result, round.actions + rest.actions), index)
    ensures TriesRun(Step(rest.result, round.actions + rest.actions), addresses, index)
  {
    CombineChannels(round, rest, index);
    CombineTries(round, rest, addresses, index);
  }

  /** A round that ends the loop, successfully or with an error that is not
      the marker, keeps the channel bookkeeping. */
  lemma FinalRoundChannels(round: Step, index: nat, created: bool)
    requires round.result.Err? ==> round.result.error.Thrown?
    requires round.result.Ok? ==> round.result.value == index && created
    requires CreatedIn(round.actions) == (if created then [index] else [])
    requires ClosedIn(round.actions) == (if round.result.Ok? then [] else CreatedIn(round.actions))
    ensures Accounted(round, index)
  {
    if created {
      assert Range(index, index + 1) == [index];
      if round.result.Ok? {
        assert CreatedIn(round.actions) == ClosedIn(round.actions) + [index];
      }
    } else {
      assert Range(index, index) == [];
    }
  }

  /** A final round tries at most `addresses[index]`. */
  lemma FinalRoundTries(round: Step, addresses: seq<Address>, index: nat, setUp: bool)
    requires index < |addresses|
    requires TargetsIn(round.actions) == (if setUp then [addresses[index]] else [])
    ensures TriesRun(round, addresses, index)
  {
    if setUp {
      assert addresses[index..index + 1] == [addresses[index]];
    } else {
      assert addresses[index..index] == [];
    }
  }

  /** A round without the marker ends the retry loop as it is. */
  lemma RetryLoopStops(env: Env, isDomainSocket: bool, addresses: seq<Address>, index: nat, retries: nat)
    requires 0 < index < |addresses|
    requires !Round(env, isDomainSocket, addresses, index).result.Err?
             || !Round(env, isDomainSocket, addresses, index).result.error.RetryConnect?
    ensures RetryLoop(env, isDomainSocket, addresses, index, retries) == Round(env, isDomainSocket, addresses, index)
  {
  }

  /** A round with the marker, within budget, is followed by the next round. */
  lemma RetryLoopGoesOn(env: Env, isDomainSocket: bool, addresses: seq<Address>, index: nat, retries: nat)
    requires 0 < index < |addresses| && retries + 1 == index
    requires Round(env, isDomainSocket, addresses, index).result == Err(RetryConnect(addresses))
    ensures index + 1 < |addresses|
    ensures var rest := RetryLoop(env, isDomainSocket, addresses, index + 1, retries + 1);
            RetryLoop(env, isDomainSocket, addresses, index, retries)
            == Step(rest.result, Round(env, isDomainSocket, addresses, index).actions + rest.actions)
  {
  }

  /** The retry loop, entered with the cursor one ahead of the retry count,
      is accounted and tries a contiguous run from the cursor; in particular
      the retry budget is never exhausted. */
  lemma {:induction false} RetryLoopAccounting(env: Env, isDomainSocket: bool, addresses: seq<Address>,
                                               index: nat, retries: nat)
    requires 0 < index < |addresses| && retries + 1 == index
    ensures Accounted(RetryLoop(env, isDomainSocket, addresses, index, retries), index)
    ensures TriesRun(RetryLoop(env, isDomainSocket, addresses, index, retries), addresses, index)
    decreases |addresses| - index
  {
    var round := Round(env, isDomainSocket, addresses, index);
    RoundTrace(env, isDomainSocket, addresses, index);
    if round.result.Err? && round.result.error.RetryConnect? {
      RetryLoopGoesOn(env, isDomainSocket, addresses, index, retries);
      var rest := RetryLoop(env, isDomainSocket, addresses, index + 1, retries + 1);
      RetryLoopAccounting(env, isDomainSocket, addresses, index + 1, retries + 1);
      CombineAccounted(round, rest, addresses, index);
    } else {
      RetryLoopStops(env, isDomainSocket, addresses, index, retries);
      FinalRoundChannels(round, index, env.newChannel(index).Succeeds?);
      FinalRoundTries(round, addresses, index, SetupSucceeds(env, index));
    }
  }

  /** A set-up failure during a retry is not the marker: the loop ends with
      the set-up error, tries no further address, and leaves no channel open. */
  lemma RetrySetupFailureEndsLoop(env: Env, isDomainSocket: bool, addresses: seq<Address>,
                                  index: nat, retries: nat)
    requires 0 < index < |addresses|
    requires !SetupSucceeds(env, index)
    ensures var r := RetryLoop(env, isDomainSocket, addresses, index, retries);
            && r.result == InitAndRegister(env, index, isDomainSocket).result
            && r.result.Err? && r.result.error.Thrown?
            && TargetsIn(r.actions) == []
            && ClosedIn(r.actions) == CreatedIn(r.actions)
  {
    RoundTrace(env, isDomainSocket, addresses, index);
    RetryLoopStops(env, isDomainSocket, addresses, index, retries);
  }

  /** An opening stage that does not raise the marker is accounted, except
      that a throwing resolver leaves channel 0 open. */
  lemma FinalOpeningAccounted(opening: Step, created: bool, resolverThrew: bool)
    requires opening.result.Err? ==> opening.result.error.Thrown?
    requires opening.result.Ok? ==> opening.result.value == 0 && created
    requires CreatedIn(opening.actions) == (if created then [0] else [])
    requires ClosedIn(opening.actions) == (if opening.result.Ok? || resolverThrew then [] else CreatedIn(opening.actions))
    ensures opening.result.Err? ==> opening.result.error.Thrown?
    ensures CreatedIn(opening.actions) == Range(0, |CreatedIn(opening.actions)|)
    ensures opening.result.Ok? ==> CreatedIn(opening.actions) == ClosedIn(opening.actions) + [opening.result.value]
    ensures opening.result.Err? && !resolverThrew ==> CreatedIn(opening.actions) == ClosedIn(opening.actions)
  {
    assert Range(0, 0) == [];
    assert Range(0, 1) == [0];
  }

  /** What `connect` promises its callers about the channels it creates and
      the addresses it tries. */
  ghost predicate ConnectPromise(env: Env, remote: Address, r: Step)
  {
    && (r.result.Err? ==> r.result.error.Thrown?)
    && CreatedIn(r.actions) == Range(0, |CreatedIn(r.actions)|)
    && (r.result.Ok? ==> CreatedIn(r.actions) == ClosedIn(r.actions) + [r.result.value])
    && (r.result.Err? && env.resolver.access.Succeeds? ==> CreatedIn(r.actions) == ClosedIn(r.actions))
    && match Candidates(env.resolver, remote)
       case None => TargetsIn(r.actions) == []
       case Some(candidates) =>
         |TargetsIn(r.actions)| <= |candidates| && TargetsIn(r.actions) == candidates[..|TargetsIn(r.actions)|]
  }

  /** An accounted stage numbered from channel 0 that walks the candidate
      list from its head keeps the promise of `connect`. */
  lemma AccountedKeepsPromise(env: Env, remote: Address, r: Step, candidates: seq<Address>)
    requires Candidates(env.resolver, remote) == Some(candidates)
    requires Accounted(r, 0) && TriesRun(r, candidates, 0)
    ensures ConnectPromise(env, remote, r)
  {
    var t := |TargetsIn(r.actions)|;
    assert candidates[0..t] == candidates[..t];
  }

  /** An opening stage that raises the retry marker has created and closed
      channel 0 after trying the head of the candidate list. */
  lemma OpeningMarkerTrace(env: Env, remote: Address)
    requires ResolvesNonEmpty(env.resolver, remote)
    requires Opening(env, remote).result.Err? && Opening(env, remote).result.error.RetryConnect?
    ensures var r := Opening(env, remote);
            && Candidates(env.resolver, remote) == Some(r.result.error.addresses)
            && |r.result.error.addresses| >= 2
            && CreatedIn(r.actions) == [0] && ClosedIn(r.actions) == [0]
            && TargetsIn(r.actions) == [r.result.error.addresses[0]]
  {
    OpeningTrace(env, remote);
  }

  /** After the marker, `connect` is the opening stage followed by the retry
      loop over the marker's list from cursor 1. */
  lemma ConnectAfterMarker(env: Env, remote: Address)
    requires ResolvesNonEmpty(env.resolver, remote)
    requires Opening(env, remote).result.Err? && Opening(env, remote).result.error.RetryConnect?
    ensures var opening := Opening(env, remote);
            var rest := RetryLoop(env, remote.DomainSocketAddress?, opening.result.error.addresses, 1, 0);
            Connect(env, remote) == Step(rest.result, opening.actions + rest.actions)
  {
  }

  /** An opening stage that used up channel 0 on the head of the candidate
      list, followed by an accounted retry loop from channel 1, keeps the
      promise of `connect`. */
  lemma MarkerThenLoopKeepsPromise(env: Env, remote: Address, opening: Step, rest: Step,
                                   candidates: seq<Address>, r: Step)
    requires Candidates(env.resolver, remote) == Some(candidates) && |candidates| >= 2
    requires CreatedIn(opening.actions) == [0] && ClosedIn(opening.actions) == [0]
    requires TargetsIn(opening.actions) == [candidates[0]]
    requires Accounted(rest, 1) && TriesRun(rest, candidates, 1)
    requires r == Step(rest.result, opening.actions + rest.actions)
    ensures ConnectPromise(env, remote, r)
  {
    CombineAccounted(opening, rest, candidates, 0);
    AccountedKeepsPromise(env, remote, r, candidates);
  }

  /** `connect` after the opening stage raised the retry marker. */
  lemma RetriedConnectAccounting(env: Env, remote: Address)
    requires ResolvesNonEmpty(env.resolver, remote)
    requires Opening(env, remote).result.Err? && Opening(env, remote).result.error.RetryConnect?
    ensures ConnectPromise(env, remote, Connect(env, remote))
  {
    var opening := Opening(env, remote);
    var candidates := opening.result.error.addresses;
    var rest := RetryLoop(env, remote.DomainSocketAddress?, candidates, 1, 0);
    ConnectAfterMarker(env, remote);
    OpeningMarkerTrace(env, remote);
    RetryLoopAccounting(env, remote.DomainSocketAddress?, candidates, 1, 0);
    MarkerThenLoopKeepsPromise(env, remote, opening, rest, candidates, Connect(env, remote));
  }

  /** Without the marker, `connect` is the opening stage as it is. */
  lemma ConnectWithoutMarker(env: Env, remote: Address)
    requires ResolvesNonEmpty(env.resolver, remote)
    requires !(Opening(env, remote).result.Err? && Opening(env, remote).result.error.RetryConnect?)
    ensures Connect(env, remote) == Opening(env, remote)
  {
  }

  /** `connect` when the opening stage settles the call by itself. */
  lemma DirectConnectAccounting(env: Env, remote: Address)
    requires ResolvesNonEmpty(env.resolver, remote)
    requires !(Opening(env, remote).result.Err? && Opening(env, remote).result.error.RetryConnect?)
    ensures ConnectPromise(env, remote, Connect(env, remote))
  {
    var opening := Opening(env, remote);
    OpeningTrace(env, remote);
    ConnectWithoutMarker(env, remote);
    FinalOpeningAccounted(opening, env.newChannel(0).Succeeds?, SetupSucceeds(env, 0) && env.resolver.access.Fails?);
    match Candidates(env.resolver, remote)
    case None =>
    case Some(candidates) => assert candidates[..1] == [candidates[0]];
  }

  /** `connect` in general: the caller never sees the retry marker; channels
      are created as 0, 1, 2, ...; every created channel is closed, in order,
      except the one delivered on success; the addresses tried are a prefix of
      the candidate list. Only when the resolver itself throws is the first
      channel left open (see ResolverThrowLeavesChannelOpen). */
  lemma ConnectAccounting(env: Env, remote: Address)
    requires ResolvesNonEmpty(env.resolver, remote)
    ensures ConnectPromise(env, remote, Connect(env, remote))
  {
    if Opening(env, remote).result.Err? && Opening(env, remote).result.error.RetryConnect? {
      RetriedConnectAccounting(env, remote);
    } else {
      DirectConnectAccounting(env, remote);
    }
  }

  /** The resolver throwing (on lookup, on a query, or from resolveAll) is the
      one failure that leaves the set-up channel open: the Mono fails with that
      exception and nothing closes channel 0. */
  lemma ResolverThrowLeavesChannelOpen(env: Env, remote: Address)
    requires env.resolver.access.Fails?
    requires SetupSucceeds(env, 0)
    ensures var r := Connect(env, remote);
            && r.result == Err(Thrown(env.resolver.access.cause))
            && CreatedIn(r.actions) == [0] && ClosedIn(r.actions) == [] && TargetsIn(r.actions) == []
  {
    var d := remote.DomainSocketAddress?;
    InitRegisterTrace(env, 0, d);
    ViewsAppend(InitAndRegister(env, 0, d).actions, ResolveAndConnect(env, 0, remote).actions);
  }

  /** Resolution failure is terminal: no connect attempt, channel 0 closed,
      and the caller sees the resolution cause. */
  lemma ResolutionFailureIsTerminal(env: Env, remote: Address)
    requires env.resolver.access.Succeeds? && !Bypasses(env.resolver, remote)
    requires env.resolver.resolveAll(remote).ResolutionFailed?
    requires SetupSucceeds(env, 0)
    ensures var r := Connect(env, remote);
            && r.result == Err(Thrown(env.resolver.resolveAll(remote).cause))
            && TargetsIn(r.actions) == [] && ClosedIn(r.actions) == [0] && CreatedIn(r.actions) == [0]
  {
    var d := remote.DomainSocketAddress?;
    var first := InitAndRegister(env, 0, d);
    var rest := ResolveAndConnect(env, 0, remote);
    var cause := env.resolver.resolveAll(remote).cause;
    ResolveBranchesAgree(env, 0, env.resolver.resolveAll(remote));
    assert rest == Step(Err(Thrown(cause)), [Closed(0, Graceful)]);
    assert Connect(env, remote) == Opening(env, remote) == Step(rest.result, first.actions + rest.actions);
    InitRegisterTrace(env, 0, d);
    ViewsAppend(first.actions, rest.actions);
  }

  /** Resolution bypass: an unsupported or already resolved address gets
      exactly one attempt, to itself, and its failure is the connect cause
      rather than a retry. */
  lemma BypassIsSingleAttempt(env: Env, remote: Address)
    requires env.resolver.access.Succeeds? && Bypasses(env.resolver, remote)
    requires SetupSucceeds(env, 0)
    ensures var r := Connect(env, remote);
            && TargetsIn(r.actions) == [remote]
            && r.result == if env.connect(0).Succeeds? then Ok(0) else Err(Thrown(env.connect(0).cause))
  {
    var d := remote.DomainSocketAddress?;
    var first := InitAndRegister(env, 0, d);
    var attempt := ResolveAndConnect(env, 0, remote);
    assert attempt == Attempt(env, [remote], 0, 0);
    OpeningAfterSetup(env, remote);
    ConnectWithoutMarker(env, remote);
    InitRegisterTrace(env, 0, d);
    ViewsAppend(first.actions, attempt.actions);
  }

  /** The trace of a walk through `addresses` from `from` that stops at the
      first success, at `k`, or runs out (k == |addresses|). */
  ghost predicate WalkedTo(r: Step, addresses: seq<Address>, from: nat, k: nat)
    requires from <= k <= |addresses|
  {
    var attempted := if k < |addresses| then k + 1 else |addresses|;
    && from <= attempted
    && CreatedIn(r.actions) == Range(from, attempted)
    && ClosedIn(r.actions) == Range(from, k)
    && TargetsIn(r.actions) == addresses[from..attempted]
  }

  /** A failed round on channel `index` in front of a walk from index+1. */
  lemma CombineWalk(round: Step, rest: Step, addresses: seq<Address>, index: nat, k: nat)
    requires index < k <= |addresses|
    requires CreatedIn(round.actions) == [index] && ClosedIn(round.actions) == [index]
    requires TargetsIn(round.actions) == [addresses[index]]
    requires WalkedTo(rest, addresses, index + 1, k)
    ensures WalkedTo(Step(rest.result, round.actions + rest.actions), addresses, index, k)
  {
    CreatedAppend(round.actions, rest.actions);
    ClosedAppend(round.actions, rest.actions);
    TargetsAppend(round.actions, rest.actions);
    var attempted := if k < |addresses| then k + 1 else |addresses|;
    RangeCons(index, attempted);
    RangeCons(index, k);
    assert addresses[index..attempted] == [addresses[index]] + addresses[index + 1..attempted];
  }

  /** The last round of a walk: the success at k, or the final failure. */
  lemma LastRound(round: Step, addresses: seq<Address>, index: nat, k: nat)
    requires index < |addresses| && index <= k <= |addresses|
    requires k == index || (k == |addresses| && index + 1 == |addresses|)
    requires CreatedIn(round.actions) == [index]
    requires ClosedIn(round.actions) == (if k == index then [] else [index])
    requires TargetsIn(round.actions) == [addresses[index]]
    ensures WalkedTo(round, addresses, index, k)
  {
    assert addresses[index..index + 1] == [addresses[index]];
  }

  /** The fallback walk of the retry loop when every channel sets up: attempts
      index, index+1, ... fail until the one at k succeeds (k < |addresses|),
      or all fail (k == |addresses|). */
  lemma {:induction false} RetryLoopFallback(env: Env, isDomainSocket: bool, addresses: seq<Address>,
                                             index: nat, retries: nat, k: nat)
    requires 0 < index < |addresses| && retries + 1 == index && index <= k <= |addresses|
    requires forall j :: index <= j < |addresses| ==> SetupSucceeds(env, j)
    requires forall j :: index <= j < k ==> env.connect(j).Fails?
    requires k < |addresses| ==> env.connect(k).Succeeds?
    ensures var r := RetryLoop(env, isDomainSocket, addresses, index, retries);
            && r.result == (if k < |addresses| then Ok(k) else Err(Thrown(env.connect(|addresses| - 1).cause)))
            && WalkedTo(r, addresses, index, k)
    decreases |addresses| - index
  {
    var round := Round(env, isDomainSocket, addresses, index);
    RoundTrace(env, isDomainSocket, addresses, index);
    assert SetupSucceeds(env, index) && env.newChannel(index).Succeeds?;
    if k == index {
      RetryLoopStops(env, isDomainSocket, addresses, index, retries);
      LastRound(round, addresses, index, k);
    } else if index + 1 < |addresses| {
      assert env.connect(index).Fails?;
      RetryLoopGoesOn(env, isDomainSocket, addresses, index, retries);
      var rest := RetryLoop(env, isDomainSocket, addresses, index + 1, retries + 1);
      RetryLoopFallback(env, isDomainSocket, addresses, index + 1, retries + 1, k);
      CombineWalk(round, rest, addresses, index, k);
    } else {
      assert env.connect(index).Fails?;
      RetryLoopStops(env, isDomainSocket, addresses, index, retries);
      LastRound(round, addresses, index, k);
    }
  }

  /** Multi-address fallback, end to end: with N candidates and every channel
      setting up, if attempts 0..k-1 fail and attempt k succeeds, connect
      delivers channel k after creating k+1 channels and closing the first k;
      if all N fail, it fails with the last attempt's cause after creating and
      closing N channels. */
  lemma ConnectFallback(env: Env, remote: Address, candidates: seq<Address>, k: nat)
    requires ResolvesNonEmpty(env.resolver, remote)
    requires Candidates(env.resolver, remote) == Some(candidates)
    requires k <= |candidates|
    requires forall j :: 0 <= j < |candidates| ==> SetupSucceeds(env, j)
    requires forall j :: 0 <= j < k ==> env.connect(j).Fails?
    requires k < |candidates| ==> env.connect(k).Succeeds?
    ensures |candidates| > 0
    ensures var r := Connect(env, remote);
            && r.result == (if k < |candidates| then Ok(k) else Err(Thrown(env.connect(|candidates| - 1).cause)))
            && WalkedTo(r, candidates, 0, k)
  {
    var opening := Opening(env, remote);
    assert SetupSucceeds(env, 0) && env.newChannel(0).Succeeds?;
    OpeningFallback(env, remote, candidates);
    OpeningTrace(env, remote);
    assert CreatedIn(opening.actions) == [0] && TargetsIn(opening.actions) == [candidates[0]];
    if k == 0 || |candidates| == 1 {
      ConnectWithoutMarker(env, remote);
      LastRound(opening, candidates, 0, k);
    } else {
      ConnectFallbackRetried(env, remote, candidates, k, opening);
    }
  }

  /** The fallback once the opening attempt has failed with more candidates
      left: the retry loop takes over from cursor 1. */
  lemma ConnectFallbackRetried(env: Env, remote: Address, candidates: seq<Address>, k: nat, opening: Step)
    requires ResolvesNonEmpty(env.resolver, remote)
    requires 0 < k <= |candidates| && 1 < |candidates|
    requires opening == Opening(env, remote)
    requires opening.result == Err(RetryConnect(candidates))
    requires CreatedIn(opening.actions) == [0] && TargetsIn(opening.actions) == [candidates[0]]
    requires ClosedIn(opening.actions) == [0]
    requires forall j :: 0 <= j < |candidates| ==> SetupSucceeds(env, j)
    requires forall j :: 0 <= j < k ==> env.connect(j).Fails?
    requires k < |candidates| ==> env.connect(k).Succeeds?
    ensures var r := Connect(env, remote);
            && r.result == (if k < |candidates| then Ok(k) else Err(Thrown(env.connect(|candidates| - 1).cause)))
            && WalkedTo(r, candidates, 0, k)
  {
    var rest := RetryLoop(env, remote.DomainSocketAddress?, candidates, 1, 0);
    ConnectAfterMarker(env, remote);
    RetryLoopFallback(env, remote.DomainSocketAddress?, candidates, 1, 0, k);
    CombineWalk(opening, rest, candidates, 0, k);
  }

  /** The opening stage when channel 0 sets up and the candidate list exists:
      it connects channel 0 to the first candidate; on failure it raises the
      marker with the whole list when more candidates remain. */
  lemma OpeningFallback(env: Env, remote: Address, candidates: seq<Address>)
    requires ResolvesNonEmpty(env.resolver, remote)
    requires Candidates(env.resolver, remote) == Some(candidates)
    requires SetupSucceeds(env, 0)
    ensures |candidates| > 0
    ensures Opening(env, remote).result ==
              if env.connect(0).Succeeds? then Ok(0)
              else if 1 < |candidates| then Err(RetryConnect(candidates))
              else Err(Thrown(env.connect(0).cause))
  {
    OpeningAfterSetup(env, remote);
    if !Bypasses(env.resolver, remote) {
      ResolveBranchesAgree(env, 0, env.resolver.resolveAll(remote));
    }
  }

  /** After a good set-up, `bind` appends the bind attempt and, when the bind
      fails, a graceful close. */
  lemma BindSteps(env: Env, bindAddress: Address, isDomainSocket: bool)
    requires SetupSucceeds(env, 0)
    ensures Bind(env, bindAddress, isDomainSocket).actions
         == InitAndRegister(env, 0, isDomainSocket).actions + [BindAttempt(0, bindAddress)]
            + (if env.bind(0).Succeeds? then [] else [Closed(0, Graceful)])
  {
  }

  /** A bind attempt, and the close that follows a failed one, neither create
      a channel nor try an address. */
  lemma BindSuffixViews(t: seq<Action>, bindAddress: Address, failed: bool)
    ensures var u := t + [BindAttempt(0, bindAddress)] + (if failed then [Closed(0, Graceful)] else []);
            && CreatedIn(u) == CreatedIn(t) && TargetsIn(u) == TargetsIn(t)
            && ClosedIn(u) == ClosedIn(t) + (if failed then [0] else [])
  {
    var attempt := [BindAttempt(0, bindAddress)];
    SingleViews(BindAttempt(0, bindAddress));
    ViewsAppend(t, attempt);
    if failed {
      SingleViews(Closed(0, Graceful));
      ViewsAppend(t + attempt, [Closed(0, Graceful)]);
    } else {
      assert t + attempt + [] == t + attempt;
    }
  }

  /** `bind`: no connect attempt is made; a failed bind or set-up closes
      every channel it created, and a successful bind leaves channel 0 open. */
  lemma BindTrace(env: Env, bindAddress: Address, isDomainSocket: bool)
    ensures var r := Bind(env, bindAddress, isDomainSocket);
            && TargetsIn(r.actions) == []
            && CreatedIn(r.actions) == (if env.newChannel(0).Succeeds? then [0] else [])
            && ClosedIn(r.actions) == (if r.result.Ok? then [] else CreatedIn(r.actions))
  {
    var setup := InitAndRegister(env, 0, isDomainSocket);
    InitRegisterTrace(env, 0, isDomainSocket);
    if SetupSucceeds(env, 0) {
      BindSteps(env, bindAddress, isDomainSocket);
      BindSuffixViews(setup.actions, bindAddress, env.bind(0).Fails?);
    } else {
      assert Bind(env, bindAddress, isDomainSocket) == setup;
    }
  }
}
