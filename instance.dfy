/** The ready-made source instances of pkg/sdk/plugins/source/instance.go:
    a pull instance that asks a PullFunc for one event at a time and a push
    instance that drains a channel of PushEvents. Both fill a batch until it
    is full, the timeout ticker fires or the context is cancelled, and both
    latch end-of-file. What a `select` picks in each round (the ticker, the
    context, the pull function's error, the channel's next value) is an
    input of the model: the k-th round's outcome is `steps(k)`. */
module SourceInstance {
  import opened SdkTypes
  import opened CEvent
  import opened PkgEvent

  /** defaultInstanceTimeout: 30 ms, as a time.Duration in nanoseconds. */
  const DefaultInstanceTimeout: int := 30000000
  /** context.Background(), as the context every instance starts from. */
  const BackgroundContext: nat := 0

  // ---------------------------------------------------------------------
  // Options
  // ---------------------------------------------------------------------

  /** The option functions; contexts and close callbacks are named by ids,
      and None is Go's nil. */
  datatype InstanceOption =
    | WithInstanceContext(ctx: Option<nat>)
    | WithInstanceTimeout(timeout: int)
    | WithInstanceClose(close: Option<nat>)

  /** The shutdown callback an instance holds before Open chains the
      context cancel in front of it: the default `func() {}`, a user
      callback, or a nil func value. */
  datatype Callback = NoOp | UserClose(id: nat) | NilFunc

  /** The builtinInstance fields the options set; a ctx of None is a nil
      context. */
  datatype Config = Config(ctx: Option<nat>, timeout: int, close: Callback)

  function DefaultConfig(): Config
  {
    Config(Some(BackgroundContext), DefaultInstanceTimeout, NoOp)
  }

  function ApplyOption(c: Config, o: InstanceOption): Config
  {
    match o
    case WithInstanceContext(ctx) => c.(ctx := ctx)
    case WithInstanceTimeout(t) => c.(timeout := t)
    case WithInstanceClose(f) => c.(close := if f.Some? then UserClose(f.value) else NilFunc)
  }

  /** The options applied in order. */
  function ApplyOptions(c: Config, opts: seq<InstanceOption>): Config
  {
    if |opts| == 0 then c else ApplyOption(ApplyOptions(c, opts[..|opts| - 1]), opts[|opts| - 1])
  }

  predicate SameKind(a: InstanceOption, b: InstanceOption)
  {
    (a.WithInstanceContext? && b.WithInstanceContext?) ||
    (a.WithInstanceTimeout? && b.WithInstanceTimeout?) ||
    (a.WithInstanceClose? && b.WithInstanceClose?)
  }

  /** The last option of each kind wins: once the options are applied,
      applying an option no later option overrides changes nothing. */
  lemma {:induction false} LastOptionOfKindWins(c: Config, opts: seq<InstanceOption>, i: nat)
    requires i < |opts|
    requires forall j :: i < j < |opts| ==> !SameKind(opts[j], opts[i])
    ensures ApplyOption(ApplyOptions(c, opts), opts[i]) == ApplyOptions(c, opts)
    decreases |opts|
  {
    var n := |opts| - 1;
    if i < n {
      LastOptionOfKindWins(c, opts[..n], i);
    }
  }

  /** A kind of option never given keeps its default. */
  lemma {:induction false} AbsentOptionKeepsDefault(c: Config, opts: seq<InstanceOption>)
    ensures (forall j :: 0 <= j < |opts| ==> !opts[j].WithInstanceContext?) ==>
      ApplyOptions(c, opts).ctx == c.ctx
    ensures (forall j :: 0 <= j < |opts| ==> !opts[j].WithInstanceTimeout?) ==>
      ApplyOptions(c, opts).timeout == c.timeout
    ensures (forall j :: 0 <= j < |opts| ==> !opts[j].WithInstanceClose?) ==>
      ApplyOptions(c, opts).close == c.close
    decreases |opts|
  {
    if |opts| > 0 {
      AbsentOptionKeepsDefault(c, opts[..|opts| - 1]);
    }
  }

  // ---------------------------------------------------------------------
  // The shared builtinInstance and its shutdown chain
  // ---------------------------------------------------------------------

  /** What closing an instance does, in order. */
  datatype Effect = CancelContext | CallClose(close: nat) | StopTicker

  /** The effects of Close: the shutdown function built at open time runs
      the internal context cancel, then the previous shutdown (the user's
      close callback, or the no-op); then the ticker stops. A nil close
      callback panics when called, so the ticker is never stopped. */
  function CloseEffects(c: Config): (es: seq<Effect>)
    ensures c.close.UserClose? ==> es == [CancelContext, CallClose(c.close.id), StopTicker]
    ensures c.close.NoOp? ==> es == [CancelContext, StopTicker]
    ensures c.close.NilFunc? ==> es == [CancelContext]
  {
    [CancelContext] + (if c.close.UserClose? then [CallClose(c.close.id)] else [])
      + (if c.close.NilFunc? then [] else [StopTicker])
  }

  class Builtin {
    var config: Config
    /** Whether the internal cancellable context has been cancelled. */
    var cancelled: bool
    /** The effects run so far, in order. */
    var effects: seq<Effect>

    constructor Default()
      ensures config == DefaultConfig() && !cancelled && effects == []
    {
      config := DefaultConfig();
      cancelled := false;
      effects := [];
    }

    /** The chained shutdown function followed by stopping the ticker;
        calling a nil close callback panics after the cancel. */
    method Close() returns (panicked: bool)
      modifies this`cancelled, this`effects
      ensures cancelled
      ensures panicked <==> config.close.NilFunc?
      ensures effects == old(effects) + CloseEffects(config)
    {
      // shutdown(): cancelCtx() then prevCancel()
      cancelled := true;
      effects := effects + [CancelContext];
      match config.close {
        case NilFunc =>
          return true;
        case UserClose(id) =>
          effects := effects + [CallClose(id)];
        case NoOp =>
      }
      // timeoutTicker.Stop()
      effects := effects + [StopTicker];
      return false;
    }
  }

  /** The part OpenPullInstance and OpenPushInstance share: start from the
      defaults, apply the options in order. */
  method OpenBuiltin(opts: seq<InstanceOption>) returns (b: Builtin)
    ensures fresh(b)
    ensures b.config == ApplyOptions(DefaultConfig(), opts)
    ensures !b.cancelled && b.effects == []
  {
    b := new Builtin.Default();
    var i := 0;
    while i < |opts|
      invariant 0 <= i <= |opts|
      invariant b.config == ApplyOptions(DefaultConfig(), opts[..i])
      invariant !b.cancelled && b.effects == []
    {
      assert opts[..i + 1][..i] == opts[..i];
      b.config := ApplyOption(b.config, opts[i]);
      i := i + 1;
    }
    assert opts[..|opts|] == opts;
  }

  /** Why opening panicked: time.NewTicker rejects a non-positive
      interval, then context.WithCancel rejects a nil parent. */
  datatype OpenPanic = NonPositiveTimeout | NilParentContext

  /** The panic the shared part of Open raises for configuration c, if any,
      in the order of its calls. */
  function OpenOutcome(c: Config): (p: Option<OpenPanic>)
  {
    if c.timeout <= 0 then Some(NonPositiveTimeout)
    else if c.ctx.None? then Some(NilParentContext)
    else None
  }

  /** Options that set neither a timeout nor a context cannot make Open
      panic: the defaults are a 30 ms interval and the background context. */
  lemma DefaultsNeverPanic(opts: seq<InstanceOption>)
    requires forall j :: 0 <= j < |opts| ==> !opts[j].WithInstanceTimeout? && !opts[j].WithInstanceContext?
    ensures OpenOutcome(ApplyOptions(DefaultConfig(), opts)).None?
  {
    AbsentOptionKeepsDefault(DefaultConfig(), opts);
  }

  /** A zero timeout makes Open panic whatever comes before it, even a nil
      context, because the ticker is created first. */
  lemma {:induction false} ZeroTimeoutPanics(opts: seq<InstanceOption>)
    ensures OpenOutcome(ApplyOptions(DefaultConfig(), opts + [WithInstanceTimeout(0)])) == Some(NonPositiveTimeout)
  {
    var all := opts + [WithInstanceTimeout(0)];
    assert all[..|all| - 1] == opts;
  }

  // ---------------------------------------------------------------------
  // Pull instance
  // ---------------------------------------------------------------------

  /** One round of the pull loop: the ticker fired, the context was done,
      or neither and the PullFunc ran with this error. */
  datatype PullStep = TimerFired | ContextDone | Pulled(err: Option<GoError>)

  class PullInstance {
    const base: Builtin
    var eof: bool

    constructor Open(base: Builtin)
      ensures this.base == base && !eof
    {
      this.base := base;
      eof := false;
    }

    /** NextBatch: a latched EOF answers (0, ErrEOF) at once; otherwise the
        batch takes events while rounds pull successfully and stops at the
        first round that does not. What the PullFunc writes into an event is
        the plugin's own code and not part of the model. The ticker's Reset
        panics on a non-positive interval, which no opened instance holds. */
    method NextBatch(steps: nat -> PullStep, evts: EventWriters) returns (n: nat, err: Option<GoError>)
      modifies this`eof
      ensures old(eof) ==> n == 0 && err == Some(ErrEOF) && eof
      ensures !old(eof) ==>
        && n <= evts.Len()
        && (forall i :: 0 <= i < n ==> steps(i) == Pulled(None))
        && (err.None? <==> n == evts.Len())
      ensures !old(eof) && n == evts.Len() ==> !eof
      ensures !old(eof) && n < evts.Len() ==>
        match steps(n)
        case TimerFired => err == Some(ErrTimeout) && !eof
        case ContextDone => err == Some(ErrEOF) && eof
        case Pulled(e) => e.Some? && err == e && !eof
    {
      if eof {
        return 0, Some(ErrEOF);
      }
      n := 0;
      while n < evts.Len()
        invariant n <= evts.Len() && !eof
        invariant forall i :: 0 <= i < n ==> steps(i) == Pulled(None)
      {
        match steps(n) {
          case TimerFired =>
            return n, Some(ErrTimeout);
          case ContextDone =>
            eof := true;
            return n, Some(ErrEOF);
          case Pulled(e) =>
            if e.Some? {
              return n, e;
            }
        }
        n := n + 1;
      }
      return n, None;
    }

    method Close() returns (panicked: bool)
      modifies base`cancelled, base`effects
      ensures base.cancelled
      ensures panicked <==> base.config.close.NilFunc?
      ensures base.effects == old(base.effects) + CloseEffects(base.config)
    {
      panicked := base.Close();
    }
  }

  /** OpenPullInstance: panics as `OpenOutcome` says, otherwise returns
      the instance and a nil error. */
  method OpenPullInstance(opts: seq<InstanceOption>) returns (r: PullInstance?, err: Option<GoError>, panicked: Option<OpenPanic>)
    ensures var c := ApplyOptions(DefaultConfig(), opts);
      && (panicked == Some(NonPositiveTimeout) <==> c.timeout <= 0)
      && (panicked == Some(NilParentContext) <==> c.timeout > 0 && c.ctx.None?)
      && (panicked.None? <==> r != null)
    ensures r != null ==> err.None? && fresh(r) && fresh(r.base) && !r.eof
    ensures r != null ==> r.base.config == ApplyOptions(DefaultConfig(), opts) && r.base.config.timeout > 0
    ensures r != null ==> !r.base.cancelled && r.base.effects == []
  {
    var b := OpenBuiltin(opts);
    panicked := OpenOutcome(b.config);
    if panicked.Some? {
      return null, None, panicked;
    }
    r := new PullInstance.Open(b);
    err := None;
  }

  // ---------------------------------------------------------------------
  // Push instance
  // ---------------------------------------------------------------------

  /** PushEvent; a Timestamp of None is the zero time.Time, Some(t) a time
      whose UnixNano is t. */
  datatype PushEvent = PushEvent(err: Option<GoError>, data: seq<byte>, timestamp: Option<int>)

  /** One round of the push loop: a receive (ok is false once the channel
      is closed), the ticker, or the context. */
  datatype PushStep = Received(ok: bool, evt: PushEvent) | PushTimerFired | PushContextDone

  /** A round that adds its event to the batch: an open channel, no error
      in the event, and data that fits the record. */
  predicate Accepts(s: PushStep, dataSize: int)
  {
    s.Received? && s.ok && s.evt.err.None? && |s.evt.data| <= dataSize
  }

  /** The error a round that ends the batch reports. */
  function StopError(s: PushStep, dataSize: int): (e: Option<GoError>)
    ensures !Accepts(s, dataSize) ==> e.Some?
  {
    match s
    case Received(ok, evt) =>
      if !ok then Some(ErrEOF)
      else if evt.err.Some? then evt.err
      else if |evt.data| > dataSize then Some(ErrShortWrite)
      else None
    case PushTimerFired => Some(ErrTimeout)
    case PushContextDone => Some(ErrEOF)
  }

  /** The record holds the event of an accepted round: its data, its length,
      and its timestamp when one was given. */
  ghost predicate Holds(w: EventWriter, e: PushEvent, oldTs: int)
    reads w.evt, w.evt.data
  {
    && w.evt.datalen == |e.data| % Pow32
    && |e.data| <= w.evt.data.Length
    && w.evt.data[..|e.data|] == e.data
    && w.evt.ts == (if e.timestamp.Some? then e.timestamp.value % Pow64 else oldTs)
  }

  /** One received value written into record w, as the body of the
      channel case does it. */
  method Receive(s: PushStep, w: EventWriter) returns (accepted: bool, err: Option<GoError>)
    requires s.Received? && w.Valid()
    requires forall t :: s.evt.timestamp == Some(t) ==> IsInt64(t)
    modifies w.data, w.evt, w.evt.data
    ensures w.Valid()
    ensures accepted <==> Accepts(s, w.dataSize)
    ensures accepted ==> err.None? && Holds(w, s.evt, old(w.evt.ts))
    ensures !accepted ==> w.evt.ts == old(w.evt.ts)
    ensures !accepted ==> err == StopError(s, w.dataSize)
  {
    var e := if s.ok then s.evt.err else Some(ErrEOF);
    if e.None? {
      var ww := w.Writer();
      var l, wErr := ww.Write(s.evt.data);
      if wErr.Some? {
        e := wErr;
      } else if l < |s.evt.data| {
        e := Some(ErrShortWrite);
      }
    }
    if e.Some? {
      return false, e;
    }
    if s.evt.timestamp.Some? {
      w.SetTimestamp(s.evt.timestamp.value % Pow64);
    }
    assert w.evt.data[..|s.evt.data|] == s.evt.data;
    return true, None;
  }

  /** The account the push loop keeps after n accepted rounds: ts0 are the
      records' timestamps when the call began. */
  ghost predicate Batched(evts: EventWriters, steps: nat -> PushStep, n: nat, ts0: seq<int>)
    reads evts, evts.Repr()
  {
    && |ts0| == |evts.evts| && n <= |evts.evts|
    && (forall i :: 0 <= i < n ==> Accepts(steps(i), evts.evts[i].dataSize))
    && (forall i :: 0 <= i < n ==> Holds(evts.evts[i], steps(i).evt, ts0[i]))
    && (forall i :: n <= i < |evts.evts| ==> evts.evts[i].evt.ts == ts0[i])
  }

  /** The records' timestamps. */
  ghost function Timestamps(evts: EventWriters): (ts: seq<int>)
    reads set e | e in evts.evts :: e.evt
    ensures |ts| == |evts.evts|
  {
    seq(|evts.evts|, i requires 0 <= i < |evts.evts| reads set e | e in evts.evts :: e.evt => evts.evts[i].evt.ts)
  }

  /** Round n of the push loop when it received a value. */
  method PushOne(evts: EventWriters, steps: nat -> PushStep, n: nat, ghost ts0: seq<int>)
    returns (accepted: bool, err: Option<GoError>)
    requires evts.Valid() && Batched(evts, steps, n, ts0) && n < |evts.evts|
    requires steps(n).Received?
    requires forall t :: steps(n).evt.timestamp == Some(t) ==> IsInt64(t)
    modifies evts.Repr()
    ensures evts.Valid()
    ensures accepted <==> Accepts(steps(n), evts.evts[n].dataSize)
    ensures accepted ==> err.None? && Batched(evts, steps, n + 1, ts0)
    ensures !accepted ==> err == StopError(steps(n), evts.evts[n].dataSize) && Batched(evts, steps, n, ts0)
  {
    var w := evts.evts[n];
    assert w.evt.ts == ts0[n];
    accepted, err := Receive(steps(n), w);
  }

  /** The rounds of the push loop from the first record on; `latch` says
      whether the round that ended the batch latches EOF. */
  method PushRounds(steps: nat -> PushStep, evts: EventWriters) returns (n: nat, err: Option<GoError>, latch: bool)
    requires evts.Valid()
    requires forall k: nat, t :: steps(k).Received? && steps(k).evt.timestamp == Some(t) ==> IsInt64(t)
    modifies evts.Repr()
    ensures evts.Valid()
    ensures Batched(evts, steps, n, old(Timestamps(evts)))
    ensures err.None? <==> n == evts.Len()
    ensures n == evts.Len() ==> !latch
    ensures n < evts.Len() ==>
      err == StopError(steps(n), evts.evts[n].dataSize) && (latch <==> !steps(n).PushTimerFired?)
  {
    ghost var ts0 := Timestamps(evts);
    n := 0;
    while n < evts.Len()
      invariant n <= evts.Len()
      invariant evts.Valid()
      invariant Batched(evts, steps, n, ts0)
    {
      var s := steps(n);
      match s {
        case Received(_, _) =>
          var accepted, e := PushOne(evts, steps, n, ts0);
          if !accepted {
            return n, e, true;
          }
        case PushTimerFired =>
          return n, Some(ErrTimeout), false;
        case PushContextDone =>
          return n, Some(ErrEOF), true;
      }
      n := n + 1;
    }
    return n, None, false;
  }

  class PushInstance {
    const base: Builtin
    var eof: bool

    constructor Open(base: Builtin)
      ensures this.base == base && !eof
    {
      this.base := base;
      eof := false;
    }

    /** NextBatch: a latched EOF answers (0, ErrEOF) and touches no record;
        otherwise each accepted round fills the next record, and the first
        round that is not accepted ends the batch without being counted.
        Everything but the ticker latches EOF. As in the pull instance, the
        ticker's Reset cannot panic on an opened instance. */
    method NextBatch(steps: nat -> PushStep, evts: EventWriters) returns (n: nat, err: Option<GoError>)
      requires evts.Valid()
      requires forall k: nat, t :: steps(k).Received? && steps(k).evt.timestamp == Some(t) ==> IsInt64(t)
      modifies this`eof, evts.Repr()
      ensures evts.Valid()
      ensures old(eof) ==> n == 0 && err == Some(ErrEOF) && eof && unchanged(evts.Repr())
      ensures !old(eof) ==>
        && n <= evts.Len()
        && (forall i :: 0 <= i < n ==> Accepts(steps(i), evts.evts[i].dataSize))
        && (forall i :: 0 <= i < n ==> Holds(evts.evts[i], steps(i).evt, old(Timestamps(evts))[i]))
        && (err.None? <==> n == evts.Len())
      ensures !old(eof) && n == evts.Len() ==> !eof
      ensures !old(eof) && n < evts.Len() ==>
        && err == StopError(steps(n), evts.evts[n].dataSize)
        && (eof <==> !steps(n).PushTimerFired?)
    {
      if eof {
        return 0, Some(ErrEOF);
      }
      var latch;
      n, err, latch := PushRounds(steps, evts);
      if latch {
        eof := true;
      }
    }

    method Close() returns (panicked: bool)
      modifies base`cancelled, base`effects
      ensures base.cancelled
      ensures panicked <==> base.config.close.NilFunc?
      ensures base.effects == old(base.effects) + CloseEffects(base.config)
    {
      panicked := base.Close();
    }
  }

  /** OpenPushInstance: panics as `OpenOutcome` says, otherwise returns
      the instance and a nil error. */
  method OpenPushInstance(opts: seq<InstanceOption>) returns (r: PushInstance?, err: Option<GoError>, panicked: Option<OpenPanic>)
    ensures var c := ApplyOptions(DefaultConfig(), opts);
      && (panicked == Some(NonPositiveTimeout) <==> c.timeout <= 0)
      && (panicked == Some(NilParentContext) <==> c.timeout > 0 && c.ctx.None?)
      && (panicked.None? <==> r != null)
    ensures r != null ==> err.None? && fresh(r) && fresh(r.base) && !r.eof
    ensures r != null ==> r.base.config == ApplyOptions(DefaultConfig(), opts) && r.base.config.timeout > 0
    ensures r != null ==> !r.base.cancelled && r.base.effects == []
  {
    var b := OpenBuiltin(opts);
    panicked := OpenOutcome(b.config);
    if panicked.Some? {
      return null, None, panicked;
    }
    r := new PushInstance.Open(b);
    err := None;
  }
}
