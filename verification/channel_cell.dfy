/**
 The single-assignment completion cell: a promise whose result slot goes from
 unset to SUCCESS or to a failure cause exactly once, fused with the Mono that
 hands that outcome to one subscriber. The compare-and-set on the slot is a
 sequential check-and-set here; event-loop marshalling of `subscribe` is taken
 as already done, so every operation runs in sequence.
 */
module ChannelCell {
  import opened TransportTypes

  /** Subscribers are told apart by an id. */
  type SubscriberId = nat

  /** The result slot: null, the SUCCESS sentinel, or a failure cause. */
  datatype Slot = Unset | Succeeded | Failed(cause: Error)

  /** A reactive-streams signal delivered to a subscriber. */
  datatype Signal =
    | OnSubscribe(subscriber: SubscriberId)
    | OnNext(subscriber: SubscriberId, value: ChannelId)
    | OnComplete(subscriber: SubscriberId)
    | OnError(subscriber: SubscriberId, error: Error)

  /** The cell bound to `channel`: its slot, the attached subscriber (if any),
      every signal emitted so far, and how many times it asked the channel to
      close (through cancellation). */
  datatype Cell = Cell(
    channel: ChannelId,
    slot: Slot,
    actual: Option<SubscriberId>,
    signals: seq<Signal>,
    closeRequests: nat)

  /** A freshly constructed promise for `ch`. */
  function NewCell(ch: ChannelId): (c: Cell)
    ensures c.channel == ch && !IsDone(c)
    ensures c.actual.None? && c.signals == [] && c.closeRequests == 0
  {
    Cell(ch, Unset, None, [], 0)
  }

  /** `isDone`: the slot has been written. */
  predicate IsDone(c: Cell)
  {
    !c.slot.Unset?
  }

  /** `isSuccess`: the slot holds SUCCESS. */
  predicate IsSuccess(c: Cell)
  {
    c.slot.Succeeded?
  }

  /** `isFailed` is `!isSuccess`, so it also holds of a cell not yet done. */
  predicate IsFailed(c: Cell)
  {
    !IsSuccess(c)
  }

  /** `cause()`: null for SUCCESS and for an unset slot, the cause otherwise. */
  function CauseOf(c: Cell): (r: Option<Error>)
    ensures r.Some? <==> c.slot.Failed?
    ensures r.Some? ==> c.slot == Failed(r.value)
  {
    if c.slot.Failed? then Some(c.slot.cause) else None
  }

  /** The signals that hand the stored outcome to subscriber `s`. */
  function Replay(s: SubscriberId, c: Cell): seq<Signal>
  {
    match c.slot
    case Unset => []
    case Succeeded => [OnNext(s, c.channel), OnComplete(s)]
    case Failed(e) => [OnError(s, e)]
  }

  /** `trySuccess`: the first resolution wins; the winner notifies the
      attached subscriber with onNext then onComplete. */
  function TrySuccess(c: Cell): (r: (Cell, bool))
    ensures r.1 <==> !IsDone(c)
    ensures r.1 ==> r.0 == c.(slot := Succeeded, signals := c.signals + (
                                if c.actual.Some? then Replay(c.actual.value, r.0) else []))
    ensures !r.1 ==> r.0 == c
  {
    if c.slot.Unset? then
      var c' := c.(slot := Succeeded);
      var notified := if c.actual.Some? then [OnNext(c.actual.value, c.channel), OnComplete(c.actual.value)] else [];
      (c'.(signals := c.signals + notified), true)
    else
      (c, false)
  }

  /** `tryFailure`: the first resolution wins; the winner notifies the
      attached subscriber with exactly one onError. */
  function TryFailure(c: Cell, e: Error): (r: (Cell, bool))
    ensures r.1 <==> !IsDone(c)
    ensures r.1 ==> r.0 == c.(slot := Failed(e), signals := c.signals + (
                                if c.actual.Some? then Replay(c.actual.value, r.0) else []))
    ensures !r.1 ==> r.0 == c
  {
    if c.slot.Unset? then
      var notified := if c.actual.Some? then [OnError(c.actual.value, e)] else [];
      (c.(slot := Failed(e), signals := c.signals + notified), true)
    else
      (c, false)
  }

  /** `setSuccess`: trySuccess with the verdict dropped. */
  function SetSuccess(c: Cell): (r: Cell)
    ensures IsDone(r) && r.channel == c.channel
    ensures !IsDone(c) ==> IsSuccess(r)
    ensures !IsDone(c) ==> r.actual == c.actual && r.closeRequests == c.closeRequests
                           && r.signals == c.signals + (if c.actual.Some? then Replay(c.actual.value, r) else [])
    ensures IsDone(c) ==> r == c
  {
    TrySuccess(c).0
  }

  /** `setFailure`: tryFailure with the verdict dropped. */
  function SetFailure(c: Cell, e: Error): (r: Cell)
    ensures IsDone(r) && r.channel == c.channel
    ensures !IsDone(c) ==> r.slot == Failed(e)
    ensures !IsDone(c) ==> r.actual == c.actual && r.closeRequests == c.closeRequests
                           && r.signals == c.signals + (if c.actual.Some? then Replay(c.actual.value, r) else [])
    ensures IsDone(c) ==> r == c
  {
    TryFailure(c, e).0
  }

  /** `_subscribe`: remember the subscriber, signal onSubscribe, and replay the
      outcome at once if the slot is already written. */
  function Subscribe(c: Cell, s: SubscriberId): (r: Cell)
    ensures r.channel == c.channel && r.slot == c.slot && r.actual == Some(s) && r.closeRequests == c.closeRequests
    ensures r.signals == c.signals + [OnSubscribe(s)] + Replay(s, c)
  {
    c.(actual := Some(s), signals := c.signals + [OnSubscribe(s)] + Replay(s, c))
  }

  /** `cancel` (on the Mono or on the promise): close the channel; the slot is
      left alone, so the cell is never reported as cancelled. */
  function Cancel(c: Cell): (r: Cell)
    ensures r.channel == c.channel && r.slot == c.slot && r.signals == c.signals && r.actual == c.actual
    ensures r.closeRequests == c.closeRequests + 1
  {
    c.(closeRequests := c.closeRequests + 1)
  }

  /** What the Mono delivers once the slot is written. */
  function Settled(c: Cell): (r: Result<ChannelId>)
    requires IsDone(c)
    ensures r.Ok? <==> IsSuccess(c)
    ensures r.Ok? ==> r.value == c.channel
    ensures r.Err? ==> Some(r.error) == CauseOf(c)
  {
    if c.slot.Succeeded? then Ok(c.channel) else Err(c.slot.cause)
  }

  // ---------------------------------------------------------------------
  // Sequences of operations on one cell

  datatype Op = TrySucceed | TryFail(e: Error) | Attach(s: SubscriberId) | CancelOp

  /** What a run reports: the final cell and the verdicts of its try-operations. */
  datatype Run = Run(cell: Cell, verdicts: seq<bool>)

  function RunOps(c: Cell, ops: seq<Op>): Run
    decreases |ops|
  {
    if ops == [] then Run(c, [])
    else
      match ops[0]
      case TrySucceed =>
        var (c', won) := TrySuccess(c);
        var rest := RunOps(c', ops[1..]);
        Run(rest.cell, [won] + rest.verdicts)
      case TryFail(e) =>
        var (c', won) := TryFailure(c, e);
        var rest := RunOps(c', ops[1..]);
        Run(rest.cell, [won] + rest.verdicts)
      case Attach(s) => RunOps(Subscribe(c, s), ops[1..])
      case CancelOp => RunOps(Cancel(c), ops[1..])
  }

  /** The slot the first try-operation of `ops` would write. */
  function FirstResolution(ops: seq<Op>): Slot
  {
    if ops == [] then Unset
    else if ops[0].TrySucceed? then Succeeded
    else if ops[0].TryFail? then Failed(ops[0].e)
    else FirstResolution(ops[1..])
  }

  function CountWins(verdicts: seq<bool>): nat
  {
    if verdicts == [] then 0 else (if verdicts[0] then 1 else 0) + CountWins(verdicts[1..])
  }

  function Attaches(ops: seq<Op>): nat
  {
    if ops == [] then 0 else (if ops[0].Attach? then 1 else 0) + Attaches(ops[1..])
  }

  /** Once the slot is written, no operation changes it, no try wins, and the
      only new signals are those of later subscriptions. */
  lemma {:induction false} ResolvedIsFinal(c: Cell, ops: seq<Op>)
    requires IsDone(c)
    ensures RunOps(c, ops).cell.slot == c.slot
    ensures CountWins(RunOps(c, ops).verdicts) == 0
    ensures Attaches(ops) == 0 ==> RunOps(c, ops).cell.signals == c.signals
    decreases |ops|
  {
    if ops != [] {
      match ops[0]
      case TrySucceed => ResolvedIsFinal(c, ops[1..]);
      case TryFail(e) => ResolvedIsFinal(c, ops[1..]);
      case Attach(s) => ResolvedIsFinal(Subscribe(c, s), ops[1..]);
      case CancelOp => ResolvedIsFinal(Cancel(c), ops[1..]);
    }
  }

  /** Exactly-once resolution: starting unset, the first try-operation wins
      and fixes the slot, and no other try-operation wins. */
  lemma {:induction false} ExactlyOnce(c: Cell, ops: seq<Op>)
    requires !IsDone(c)
    ensures RunOps(c, ops).cell.slot == FirstResolution(ops)
    ensures CountWins(RunOps(c, ops).verdicts) == if FirstResolution(ops).Unset? then 0 else 1
    ensures |RunOps(c, ops).verdicts| > 0 ==> RunOps(c, ops).verdicts[0]
    decreases |ops|
  {
    if ops != [] {
      match ops[0]
      case TrySucceed => ResolvedIsFinal(TrySuccess(c).0, ops[1..]);
      case TryFail(e) => ResolvedIsFinal(TryFailure(c, e).0, ops[1..]);
      case Attach(s) => ExactlyOnce(Subscribe(c, s), ops[1..]);
      case CancelOp => ExactlyOnce(Cancel(c), ops[1..]);
    }
  }

  /** The signals a cell has emitted are exactly: nothing before a subscriber
      attaches, then onSubscribe followed by the replay of the outcome. */
  ghost predicate Coherent(c: Cell)
  {
    c.signals == match c.actual
                 case None => []
                 case Some(s) => [OnSubscribe(s)] + Replay(s, c)
  }

  /** Notification order and replay: for one subscriber, attaching before or
      after resolution, and any interleaving of tries and cancellations, the
      subscriber sees onSubscribe, then onNext and onComplete on success or
      one onError on failure, and nothing else. */
  lemma {:induction false} SignalsCoherent(c: Cell, ops: seq<Op>)
    requires Coherent(c)
    requires Attaches(ops) <= (if c.actual.None? then 1 else 0)
    ensures Coherent(RunOps(c, ops).cell)
    decreases |ops|
  {
    if ops != [] {
      match ops[0]
      case TrySucceed => SignalsCoherent(TrySuccess(c).0, ops[1..]);
      case TryFail(e) => SignalsCoherent(TryFailure(c, e).0, ops[1..]);
      case Attach(s) => SignalsCoherent(Subscribe(c, s), ops[1..]);
      case CancelOp => SignalsCoherent(Cancel(c), ops[1..]);
    }
  }

  /** From a fresh cell with at most one subscription, the emitted signals are
      determined by the final slot alone, whatever the order of operations. */
  lemma NotificationOrder(ch: ChannelId, ops: seq<Op>)
    requires Attaches(ops) <= 1
    ensures var r := RunOps(NewCell(ch), ops).cell;
            match r.actual
            case None => r.signals == []
            case Some(s) =>
              match r.slot
              case Unset => r.signals == [OnSubscribe(s)]
              case Succeeded => r.signals == [OnSubscribe(s), OnNext(s, ch), OnComplete(s)]
              case Failed(e) => r.signals == [OnSubscribe(s), OnError(s, e)]
  {
    SignalsCoherent(NewCell(ch), ops);
    ChannelPreserved(NewCell(ch), ops);
  }

  lemma {:induction false} ChannelPreserved(c: Cell, ops: seq<Op>)
    ensures RunOps(c, ops).cell.channel == c.channel
    ensures Attaches(ops) == 0 ==> RunOps(c, ops).cell.actual == c.actual
    decreases |ops|
  {
    if ops != [] {
      match ops[0]
      case TrySucceed => ChannelPreserved(TrySuccess(c).0, ops[1..]);
      case TryFail(e) => ChannelPreserved(TryFailure(c, e).0, ops[1..]);
      case Attach(s) => ChannelPreserved(Subscribe(c, s), ops[1..]);
      case CancelOp => ChannelPreserved(Cancel(c), ops[1..]);
    }
  }

  /** Subscribing before or after the winning resolution gives the subscriber
      the same signals. */
  lemma SubscribeOrderIrrelevant(ch: ChannelId, s: SubscriberId, resolve: Op)
    requires resolve.TrySucceed? || resolve.TryFail?
    ensures RunOps(NewCell(ch), [Attach(s), resolve]).cell.signals
         == RunOps(NewCell(ch), [resolve, Attach(s)]).cell.signals
  {
    var before, after := [Attach(s), resolve], [resolve, Attach(s)];
    assert before[1..] == [resolve] && after[1..] == [Attach(s)];
    assert [resolve][1..] == [] && [Attach(s)][1..] == [];
    assert Attaches([resolve]) == 0 && Attaches([Attach(s)]) == 1;
    assert Attaches(before) == 1 + Attaches([resolve]);
    assert Attaches(after) == Attaches([Attach(s)]);
    ExactlyOnce(NewCell(ch), before);
    ExactlyOnce(NewCell(ch), after);
    assert FirstResolution(before) == FirstResolution(after);
    NotificationOrder(ch, before);
    NotificationOrder(ch, after);
    var c0 := NewCell(ch);
    assert RunOps(c0, before) == RunOps(Subscribe(c0, s), [resolve]);
    ChannelPreserved(Subscribe(c0, s), [resolve]);
    var c1 := if resolve.TrySucceed? then TrySuccess(c0).0 else TryFailure(c0, resolve.e).0;
    assert RunOps(c0, after).cell == RunOps(c1, [Attach(s)]).cell;
    assert RunOps(c1, [Attach(s)]) == RunOps(Subscribe(c1, s), []);
  }

  /** The status queries agree with the slot: done iff written, a cause iff
      failed, and the Mono delivers the channel iff the slot holds SUCCESS. */
  lemma StatusQueries(c: Cell)
    ensures IsDone(c) <==> IsSuccess(c) || CauseOf(c).Some?
    ensures IsSuccess(c) ==> CauseOf(c).None? && !IsFailed(c)
    ensures !IsDone(c) ==> IsFailed(c) && CauseOf(c).None?
  {
  }
}
