/**
 Applying the configured channel options and attributes to a new channel.
 Option application never aborts: an option the channel does not know, or one
 whose setter throws, is logged and skipped, and the loop goes on. For a
 domain socket the address-family options SO_REUSEADDR and TCP_NODELAY are
 skipped without being tried.
 */
module ChannelOptions {
  import opened TransportTypes

  type OptionValue = string

  /** An option entry, in the configuration map's iteration order. */
  type OptionEntry = (OptionKey, OptionValue)

  /** An attribute entry: key and value. */
  type AttributeEntry = (string, string)

  /** The channel configuration's answer to `setOption`, per channel. */
  type OptionSetter = (ChannelId, OptionKey, OptionValue) -> SetOptionOutcome

  /** True for the options a domain socket does not try. */
  predicate SkippedFor(key: OptionKey, isDomainSocket: bool)
  {
    isDomainSocket && (key == SoReuseAddr || key == TcpNoDelay)
  }

  /** The options that are tried, keeping their order. */
  function Attempted(options: seq<OptionEntry>, isDomainSocket: bool): (r: seq<OptionEntry>)
    ensures |r| <= |options|
    decreases |options|
  {
    if options == [] then []
    else
      var last := options[|options| - 1];
      Attempted(options[..|options| - 1], isDomainSocket) + (if SkippedFor(last.0, isDomainSocket) then [] else [last])
  }

  /** The record of trying one option. */
  function TryOption(ch: ChannelId, entry: OptionEntry, setOption: OptionSetter): Action
  {
    OptionAttempt(ch, entry.0, setOption(ch, entry.0, entry.1))
  }

  /** One attempt per tried option, in order; the answers do not matter. */
  function OptionActions(ch: ChannelId, options: seq<OptionEntry>, isDomainSocket: bool,
                         setOption: OptionSetter): (r: seq<Action>)
    ensures |r| <= |options|
  {
    var tried := Attempted(options, isDomainSocket);
    seq(|tried|, k requires 0 <= k < |tried| => TryOption(ch, tried[k], setOption))
  }

  /** One `attr(key).set(value)` per attribute, in order. */
  function AttributeActions(ch: ChannelId, attrs: seq<AttributeEntry>): (r: seq<Action>)
    ensures |r| == |attrs|
  {
    seq(|attrs|, k requires 0 <= k < |attrs| => AttributeSet(ch, attrs[k].0, attrs[k].1))
  }

  /** The attributes a channel holds after a trace: each setting binds its
      key to its value, a later setting of a key replacing an earlier one. */
  function AttributeValues(t: seq<Action>): map<string, string>
    decreases |t|
  {
    if t == [] then map[]
    else
      var last := t[|t| - 1];
      var before := AttributeValues(t[..|t| - 1]);
      if last.AttributeSet? then before[last.attribute := last.value] else before
  }

  /** The keys of a configuration map are distinct, as a Java Map's are. */
  predicate DistinctKeys(attrs: seq<AttributeEntry>)
  {
    forall i, j :: 0 <= i < j < |attrs| ==> attrs[i].0 != attrs[j].0
  }

  /** After the attribute settings the channel holds exactly the configured
      keys, each bound to its configured value. */
  lemma {:induction false} AttributesHoldConfiguredValues(ch: ChannelId, attrs: seq<AttributeEntry>)
    ensures AttributeValues(AttributeActions(ch, attrs)).Keys == set e | e in attrs :: e.0
    ensures DistinctKeys(attrs) ==>
              forall e :: e in attrs ==> AttributeValues(AttributeActions(ch, attrs))[e.0] == e.1
    decreases |attrs|
  {
    if attrs != [] {
      var n := |attrs| - 1;
      var init := attrs[..n];
      var acts := AttributeActions(ch, attrs);
      assert attrs == init + [attrs[n]];
      assert acts[..n] == AttributeActions(ch, init);
      assert acts[n] == AttributeSet(ch, attrs[n].0, attrs[n].1);
      AttributesHoldConfiguredValues(ch, init);
      var held := AttributeValues(acts);
      assert held == AttributeValues(AttributeActions(ch, init))[attrs[n].0 := attrs[n].1];
      if DistinctKeys(attrs) {
        assert DistinctKeys(init);
        forall e | e in attrs
          ensures held[e.0] == e.1
        {
          if e != attrs[n] {
            var i :| 0 <= i < n && init[i] == e;
            assert attrs[i].0 != attrs[n].0;
          }
        }
      }
    }
  }

  /** An option is tried exactly when it is configured and not skipped for
      the socket family. */
  lemma {:induction false} AttemptedMembership(options: seq<OptionEntry>, isDomainSocket: bool, o: OptionEntry)
    ensures o in Attempted(options, isDomainSocket) <==> o in options && !SkippedFor(o.0, isDomainSocket)
    decreases |options|
  {
    if options != [] {
      var init := options[..|options| - 1];
      assert options == init + [options[|options| - 1]];
      AttemptedMembership(init, isDomainSocket, o);
    }
  }

  /** The `setChannelOptions` loop: skip the domain-socket options, try every
      other one, and keep going whatever the channel answers. */
  method SetChannelOptions(ch: ChannelId, options: seq<OptionEntry>, isDomainSocket: bool,
                           setOption: OptionSetter) returns (actions: seq<Action>)
    ensures actions == OptionActions(ch, options, isDomainSocket, setOption)
    ensures |actions| <= |options|
  {
    actions := [];
    var i := 0;
    while i < |options|
      invariant 0 <= i <= |options|
      invariant |actions| == |Attempted(options[..i], isDomainSocket)| <= i
      invariant forall k :: 0 <= k < |actions| ==>
                  actions[k] == TryOption(ch, Attempted(options[..i], isDomainSocket)[k], setOption)
    {
      var key := options[i].0;
      assert options[..i + 1][..i] == options[..i];
      if isDomainSocket && (key == SoReuseAddr || key == TcpNoDelay) {
        i := i + 1;
        continue;
      }
      var outcome := setOption(ch, key, options[i].1);
      // Unknown and Threw are only logged: the loop carries on.
      actions := actions + [OptionAttempt(ch, key, outcome)];
      i := i + 1;
    }
    assert options[..i] == options;
  }

  /** The `setAttributes` loop: every attribute is set to its value, in order. */
  method SetAttributes(ch: ChannelId, attrs: seq<AttributeEntry>) returns (actions: seq<Action>)
    ensures actions == AttributeActions(ch, attrs)
    ensures AttributeValues(actions).Keys == set e | e in attrs :: e.0
    ensures DistinctKeys(attrs) ==> forall e :: e in attrs ==> AttributeValues(actions)[e.0] == e.1
  {
    actions := [];
    for i := 0 to |attrs|
      invariant |actions| == i
      invariant forall k :: 0 <= k < i ==> actions[k] == AttributeSet(ch, attrs[k].0, attrs[k].1)
    {
      actions := actions + [AttributeSet(ch, attrs[i].0, attrs[i].1)];
    }
    AttributesHoldConfiguredValues(ch, attrs);
  }

  /** Every configured option that is not skipped is tried with its own value,
      and every attempt corresponds to such an option: a failing option never
      prevents the ones after it from being tried. */
  lemma EveryOptionTried(ch: ChannelId, options: seq<OptionEntry>, isDomainSocket: bool,
                         setOption: OptionSetter, o: OptionEntry)
    ensures TryOption(ch, o, setOption) in OptionActions(ch, options, isDomainSocket, setOption)
            <== o in options && !SkippedFor(o.0, isDomainSocket)
    ensures forall a :: a in OptionActions(ch, options, isDomainSocket, setOption) ==>
              exists e :: e in options && !SkippedFor(e.0, isDomainSocket) && a == TryOption(ch, e, setOption)
  {
    var tried := Attempted(options, isDomainSocket);
    var acts := OptionActions(ch, options, isDomainSocket, setOption);
    AttemptedMembership(options, isDomainSocket, o);
    if o in options && !SkippedFor(o.0, isDomainSocket) {
      var k :| 0 <= k < |tried| && tried[k] == o;
      assert acts[k] == TryOption(ch, o, setOption);
    }
    forall a | a in acts
      ensures exists e :: e in options && !SkippedFor(e.0, isDomainSocket) && a == TryOption(ch, e, setOption)
    {
      var k :| 0 <= k < |acts| && acts[k] == a;
      AttemptedMembership(options, isDomainSocket, tried[k]);
    }
  }

  /** Which options are tried, and in what order, does not depend on what the
      channel answers. */
  lemma AnswersDoNotStopTheLoop(ch: ChannelId, options: seq<OptionEntry>, isDomainSocket: bool,
                                f: OptionSetter, g: OptionSetter)
    ensures |OptionActions(ch, options, isDomainSocket, f)| == |OptionActions(ch, options, isDomainSocket, g)|
    ensures forall k :: 0 <= k < |OptionActions(ch, options, isDomainSocket, f)| ==>
              OptionActions(ch, options, isDomainSocket, f)[k].key == OptionActions(ch, options, isDomainSocket, g)[k].key
  {
  }
}
