/**
 Values shared by every part of the connector model: socket addresses, the
 errors that flow through the completion cells, and the trace of actions the
 connector performs on the channels it creates.
 */
module TransportTypes {

  /** A socket address: an internet host/port pair (resolved or not) or a unix
      domain socket path. */
  datatype Address =
    | InetSocketAddress(host: string, port: nat)
    | DomainSocketAddress(path: string)

  /** Channels are named by the order of their creation within one call: the
      channel created for connect attempt k is channel k. */
  type ChannelId = nat

  /** An opaque Throwable raised by a collaborator (channel factory, channel,
      resolver). */
  type Cause = string

  /** What a completion cell can fail with. */
  datatype Error =
    | Thrown(cause: Cause)
      /** The internal RetryConnectException: carries the full candidate list. */
    | RetryConnect(addresses: seq<Address>)
      /** What the reactive retry operator raises once its retry budget is spent. */
    | RetriesExhausted(last: Error)

  datatype Option<T> = None | Some(value: T)

  /** The outcome delivered by a Mono of Channel. */
  datatype Result<T> = Ok(value: T) | Err(error: Error)

  /** The name of an option other than the two a domain socket skips. Netty
      keeps one ChannelOption constant per name, so "SO_REUSEADDR" and
      "TCP_NODELAY" are only ever the named keys below. */
  type OtherOptionName = name: string | name != "SO_REUSEADDR" && name != "TCP_NODELAY" witness ""

  /** Channel option keys; the two named ones are those skipped for domain sockets. */
  datatype OptionKey = SoReuseAddr | TcpNoDelay | OtherOption(name: OtherOptionName)

  /** What the channel's configuration answers when an option is set. */
  datatype SetOptionOutcome = Accepted | Unknown | Threw(cause: Cause)

  /** `close()` (orderly) versus `unsafe().closeForcibly()`. */
  datatype CloseKind = Graceful | Forcible

  /** One observable step the connector performs on a channel. */
  datatype Action =
    | Created(ch: ChannelId)
    | OptionAttempt(ch: ChannelId, key: OptionKey, outcome: SetOptionOutcome)
    | AttributeSet(ch: ChannelId, attribute: string, value: string)
      /** The option attempts and attribute settings applied to a new channel. */
    | Configured(ch: ChannelId, options: seq<Action>, attributes: seq<Action>)
    | Registered(ch: ChannelId)
    | ConnectAttempt(ch: ChannelId, remote: Address, local: Option<Address>)
    | BindAttempt(ch: ChannelId, bindAddress: Address)
    | Closed(ch: ChannelId, kind: CloseKind)

  /** The outcome of one asynchronous stage together with what it did. */
  datatype Step = Step(result: Result<ChannelId>, actions: seq<Action>)

  /** The channels created in a trace, in creation order. */
  function CreatedIn(t: seq<Action>): seq<ChannelId>
  {
    if t == [] then []
    else (if t[0].Created? then [t[0].ch] else []) + CreatedIn(t[1..])
  }

  /** The channels closed in a trace, in closing order. */
  function ClosedIn(t: seq<Action>): seq<ChannelId>
  {
    if t == [] then []
    else (if t[0].Closed? then [t[0].ch] else []) + ClosedIn(t[1..])
  }

  /** The remote addresses connect attempts were made to, in attempt order. */
  function TargetsIn(t: seq<Action>): seq<Address>
  {
    if t == [] then []
    else (if t[0].ConnectAttempt? then [t[0].remote] else []) + TargetsIn(t[1..])
  }

  /** The channel ids lo, lo+1, ..., hi-1. */
  function Range(lo: nat, hi: nat): (r: seq<ChannelId>)
    ensures |r| == if lo <= hi then hi - lo else 0
    decreases hi - lo
  {
    if lo >= hi then [] else [lo] + Range(lo + 1, hi)
  }

  /** The views of a one-action trace. */
  lemma SingleViews(a: Action)
    ensures CreatedIn([a]) == if a.Created? then [a.ch] else []
    ensures ClosedIn([a]) == if a.Closed? then [a.ch] else []
    ensures TargetsIn([a]) == if a.ConnectAttempt? then [a.remote] else []
  {
    assert [a][1..] == [];
  }

  lemma {:induction false} CreatedAppend(a: seq<Action>, b: seq<Action>)
    ensures CreatedIn(a + b) == CreatedIn(a) + CreatedIn(b)
  {
    if a == [] {
      assert a + b == b;
    } else {
      assert (a + b)[0] == a[0] && (a + b)[1..] == a[1..] + b;
      CreatedAppend(a[1..], b);
    }
  }

  lemma {:induction false} ClosedAppend(a: seq<Action>, b: seq<Action>)
    ensures ClosedIn(a + b) == ClosedIn(a) + ClosedIn(b)
  {
    if a == [] {
      assert a + b == b;
    } else {
      assert (a + b)[0] == a[0] && (a + b)[1..] == a[1..] + b;
      ClosedAppend(a[1..], b);
    }
  }

  lemma {:induction false} TargetsAppend(a: seq<Action>, b: seq<Action>)
    ensures TargetsIn(a + b) == TargetsIn(a) + TargetsIn(b)
  {
    if a == [] {
      assert a + b == b;
    } else {
      assert (a + b)[0] == a[0] && (a + b)[1..] == a[1..] + b;
      TargetsAppend(a[1..], b);
    }
  }

  /** The three trace views distribute over concatenation. */
  lemma ViewsAppend(a: seq<Action>, b: seq<Action>)
    ensures CreatedIn(a + b) == CreatedIn(a) + CreatedIn(b)
    ensures ClosedIn(a + b) == ClosedIn(a) + ClosedIn(b)
    ensures TargetsIn(a + b) == TargetsIn(a) + TargetsIn(b)
  {
    CreatedAppend(a, b);
    ClosedAppend(a, b);
    TargetsAppend(a, b);
  }
}
