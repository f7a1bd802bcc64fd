/** The bookkeeping of a `Cordcutter` as pure values: its settings, its state
    (the failure counts, `tripped_at`, the command slots it rewrites and the
    reset timers it has armed), and one function per step that changes it. */
module Breaker {
  import opened Wrappers
  import opened Discord

  /** The Python exceptions the breaker raises or runs into. */
  datatype PyError = TypeError | AttributeError

  /** A trip callback: which function it is, and whether it is a coroutine function. */
  datatype Callback = Callback(id: nat, isCoroutine: bool)

  /** The contents of a command's `_callback` slot: the command's own callback,
      or the breaker's fallback wrapper around the callback it displaced. */
  datatype Handler = Original(id: nat) | TripWrapper(wrapped: Handler)

  /** What the `reset_after` setter accepts: None, an int (minutes) or a
      timedelta (here in whole seconds). */
  datatype ResetAfterArg = NoValue | Minutes(minutes: int) | Delta(seconds: int)

  const SecondsPerMinute: int := 60

  /** The `reset_after` setter: None means one minute, an int n means n minutes,
      a timedelta is kept as it is. The result is in seconds. */
  function NormaliseResetAfter(time: ResetAfterArg): int
  {
    match time
    case NoValue => SecondsPerMinute
    case Minutes(n) => n * SecondsPerMinute
    case Delta(seconds) => seconds
  }

  /** The `trip_callback` setter applied to the stored callback `slot`
      (None while no callback was ever stored): assigning None keeps the slot,
      a coroutine function replaces it, anything else raises TypeError. */
  function AssignTripCallback(slot: Option<Callback>, callback: Option<Callback>): Result<Option<Callback>, PyError>
  {
    match callback
    case None => Success(slot)
    case Some(cb) => if cb.isCoroutine then Success(Some(cb)) else Failure(TypeError)
  }

  /** The slot after a series of assignments, each TypeError caught by the caller. */
  function AssignAll(slot: Option<Callback>, callbacks: seq<Option<Callback>>): Option<Callback>
    decreases |callbacks|
  {
    if callbacks == [] then slot
    else
      var next := match AssignTripCallback(slot, callbacks[0])
                  case Success(s) => s
                  case Failure(_) => slot;
      AssignAll(next, callbacks[1..])
  }

  /** The constructor arguments and attributes that steer the breaker. */
  datatype Settings = Settings(threshold: int, resetAfter: int, tripCallback: Option<Callback>)

  /** A reset armed with `call_later`: at time `due` it puts `saved` back into
      the slot of `command`. */
  datatype PendingReset = PendingReset(command: Command, saved: Handler, due: int)

  /** What the breaker's steps change: the failure counts (`errors`), the
      instance-wide `tripped_at`, every command's `_callback` slot, and the
      armed resets in the order the event loop will run them. */
  datatype BreakerState = BreakerState(
    errors: map<Command, nat>,
    trippedAt: Option<int>,
    callbacks: map<Command, Handler>,
    pending: seq<PendingReset>)

  /** `errors.get(command, 0)` */
  function CountOf(errors: map<Command, nat>, c: Command): nat
  {
    if c in errors then errors[c] else 0
  }

  /** The failure table after one failure of `c`, and whether it trips the breaker. */
  datatype Counted = Counted(errors: map<Command, nat>, trips: bool)

  /** One failure of `c`: ignored when its count already reached the threshold,
      otherwise counted, tripping when the new count reaches the threshold. */
  function RecordFailure(errors: map<Command, nat>, c: Command, threshold: int): Counted
  {
    if CountOf(errors, c) >= threshold then Counted(errors, false)
    else
      var n := CountOf(errors, c) + 1;
      Counted(errors[c := n], n >= threshold)
  }

  /** The event loop's timers are ordered by due time. */
  predicate Sorted(pending: seq<PendingReset>)
  {
    forall i, j :: 0 <= i < j < |pending| ==> pending[i].due <= pending[j].due
  }

  /** Where a timer due at `due` goes: after every timer due no later than it. */
  function InsertionPoint(pending: seq<PendingReset>, due: int): (k: nat)
    requires Sorted(pending)
    ensures k <= |pending|
    ensures forall i :: 0 <= i < k ==> pending[i].due <= due
    ensures forall i :: k <= i < |pending| ==> pending[i].due > due
  {
    if pending == [] || pending[0].due > due then 0
    else 1 + InsertionPoint(pending[1..], due)
  }

  /** `call_later`: arm the reset `p`. The timers stay ordered, and the armed
      set gains exactly `p`. */
  function Schedule(pending: seq<PendingReset>, p: PendingReset): (r: seq<PendingReset>)
    requires Sorted(pending)
    ensures Sorted(r)
    ensures multiset(r) == multiset(pending) + multiset{p}
  {
    var k := InsertionPoint(pending, p.due);
    assert pending == pending[..k] + pending[k..];
    pending[..k] + [p] + pending[k..]
  }

  /** `tripped_breaker(command)` with a missing callback read as None: without
      a callback nothing changes; with one, `tripped_at` becomes now, the slot
      gets a wrapper around its current handler, and a reset carrying that
      handler is armed `reset_after` seconds later. */
  function Trip(s: BreakerState, cfg: Settings, c: Command, now: int): BreakerState
    requires c in s.callbacks && Sorted(s.pending)
  {
    if cfg.tripCallback.None? then s
    else
      var saved := s.callbacks[c];
      s.(trippedAt := Some(now),
         callbacks := s.callbacks[c := TripWrapper(saved)],
         pending := Schedule(s.pending, PendingReset(c, saved, now + cfg.resetAfter)))
  }

  /** `handle_cutter(interaction, error)`. */
  function HandleFailure(s: BreakerState, cfg: Settings, interaction: Interaction, now: int): BreakerState
    requires Sorted(s.pending)
    requires interaction.command.Some? ==> interaction.command.value in s.callbacks
  {
    match interaction.command
    case None => s
    case Some(c) =>
      var r := RecordFailure(s.errors, c, cfg.threshold);
      var counted := s.(errors := r.errors);
      if r.trips then Trip(counted, cfg, c, now) else counted
  }

  /** `reset_breaker(command, original_callback)`. */
  function Reset(s: BreakerState, c: Command, saved: Handler): BreakerState
  {
    s.(trippedAt := None, callbacks := s.callbacks[c := saved], errors := s.errors - {c})
  }

  /** The earliest armed reset is due at `now`. */
  predicate Due(pending: seq<PendingReset>, now: int)
  {
    pending != [] && pending[0].due <= now
  }

  /** The event loop runs the earliest armed reset. */
  function Fire(s: BreakerState): BreakerState
    requires s.pending != []
  {
    var p := s.pending[0];
    Reset(s.(pending := s.pending[1..]), p.command, p.saved)
  }

  /** The event loop runs every reset due at `now`, earliest first. */
  function FireAllDue(s: BreakerState, now: int): BreakerState
    decreases |s.pending|
  {
    if Due(s.pending, now) then FireAllDue(Fire(s), now) else s
  }

  /** What calling a handler does. */
  datatype Invocation =
    | RanOriginal(id: nat, args: seq<Arg>)
    | CalledTripCallback(callback: Callback, interaction: Option<Interaction>)
    | ReturnedNone

  /** The wrapper of `__wrap_trip_callback`: it reads the breaker's trip
      callback when it is called, hands it the first interaction among its
      positional arguments, and never calls the callback it wraps. */
  function RunWrapper(tripCallback: Option<Callback>, args: seq<Arg>): (r: Invocation)
    ensures !r.RanOriginal?
    ensures r.CalledTripCallback? <==> tripCallback.Some?
    ensures r.CalledTripCallback? ==> r.callback == tripCallback.value && r.interaction == FindInteraction(args)
  {
    match tripCallback
    case Some(cb) => CalledTripCallback(cb, FindInteraction(args))
    case None => ReturnedNone
  }

  /** The host calling whatever sits in a command's slot. */
  function Invoke(h: Handler, tripCallback: Option<Callback>, args: seq<Arg>): Invocation
  {
    match h
    case Original(id) => RanOriginal(id, args)
    case TripWrapper(_) => RunWrapper(tripCallback, args)
  }

  // ---------------------------------------------------------------------------
  // The code as written, where `_trip_callback` may never have been assigned.

  /** Reading `self.trip_callback` as written: the setter never stores None, so
      on a breaker that never received a callback the attribute does not exist
      and the read raises AttributeError; otherwise it yields a callback. */
  function ReadTripCallbackAsWritten(slot: Option<Callback>): (r: Result<Callback, PyError>)
    ensures r.Failure? <==> slot.None?
    ensures r.Failure? ==> r.error == AttributeError
    ensures r.Success? ==> slot == Some(r.value)
  {
    match slot
    case None => Failure(AttributeError)
    case Some(cb) => Success(cb)
  }

  /** What a step as written leaves behind: the state, and the exception it
      raised, if any. */
  datatype Outcome = Outcome(state: BreakerState, raised: Option<PyError>)

  /** `handle_cutter` as written: the threshold-th failure on a breaker that
      never received a callback raises AttributeError at the callback test of
      `tripped_breaker`, with the count already stored at the threshold; in
      every other case it is `HandleFailure` and raises nothing. */
  function HandleFailureAsWritten(s: BreakerState, cfg: Settings, interaction: Interaction, now: int): (r: Outcome)
    requires Sorted(s.pending)
    requires interaction.command.Some? ==> interaction.command.value in s.callbacks
    ensures r.raised.Some? <==> (interaction.command.Some? && cfg.tripCallback.None?
                                 && CountOf(s.errors, interaction.command.value) < cfg.threshold
                                 <= CountOf(s.errors, interaction.command.value) + 1)
    ensures r.raised.Some? ==> && r.raised.value == AttributeError
                               && r.state == s.(errors := s.errors[interaction.command.value := cfg.threshold])
    ensures r.raised.None? ==> r.state == HandleFailure(s, cfg, interaction, now)
  {
    match interaction.command
    case None => Outcome(s, None)
    case Some(c) =>
      var r := RecordFailure(s.errors, c, cfg.threshold);
      var counted := s.(errors := r.errors);
      if !r.trips then Outcome(counted, None)
      else
        match ReadTripCallbackAsWritten(cfg.tripCallback)
        case Failure(e) => Outcome(counted, Some(e))
        case Success(_) => Outcome(Trip(counted, cfg, c, now), None)
  }
}
