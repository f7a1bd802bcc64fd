/** The `Cordcutter` class, and the host command tree it hooks into. */
module Cordcutter {
  import opened Wrappers
  import opened Discord
  import opened Breaker
  import opened BreakerLemmas

  /** What the tree calls when a command fails: the host's own handler, or the
      `_tree_on_error` of a breaker. */
  datatype ErrorHandler = HostHandler(id: nat) | CutterHook(cutter: Cordcutter)

  /** The call `_tree_on_error` makes to the handler it displaced. */
  datatype Forward = Forward(handler: ErrorHandler, interaction: Interaction, error: AppCommandError)

  /** The host's command tree: its `on_error` attribute, and each registered
      command's `_callback` slot. */
  class CommandTree {
    var onError: ErrorHandler
    var callbacks: map<Command, Handler>

    constructor (onError: ErrorHandler, callbacks: map<Command, Handler>)
      ensures this.onError == onError && this.callbacks == callbacks
    {
      this.onError := onError;
      this.callbacks := callbacks;
    }
  }

  /** A per-command circuit breaker chained in front of a tree's error handler. */
  class Cordcutter {
    const tree: CommandTree
    /** `_original_tree_on_error` */
    const originalOnError: ErrorHandler
    var threshold: int
    /** `_reset_after`, in seconds */
    var resetAfterSeconds: int
    /** `_trip_callback`; None while no callback was ever stored */
    var tripCallbackSlot: Option<Callback>
    var errors: map<Command, nat>
    /** Whether `__init__` got as far as creating `errors` (line 69) */
    var errorsAssigned: bool
    var trippedAt: Option<int>
    /** The resets this breaker armed with `call_later`, in the order the event loop runs them. */
    var pending: seq<PendingReset>

    /** What holds from the moment the hook is installed: the timers are in
        due order and a stored trip callback is a coroutine function. */
    ghost predicate WellFormed()
      reads this
    {
      && Sorted(pending)
      && (tripCallbackSlot.Some? ==> tripCallbackSlot.value.isCoroutine)
    }

    /** A breaker whose `__init__` ran to the end. */
    ghost predicate Valid()
      reads this
    {
      errorsAssigned && WellFormed()
    }

    function Config(): Settings
      reads this
    {
      Settings(threshold, resetAfterSeconds, tripCallbackSlot)
    }

    function State(): BreakerState
      reads this, tree
    {
      BreakerState(errors, trippedAt, tree.callbacks, pending)
    }

    /** The start of `__init__`, up to the `trip_callback` assignment: the
        breaker saves the tree's error handler, installs its own, and stores
        the threshold and `reset_after`. No callback is stored and `errors`
        does not exist yet. */
    constructor (tree: CommandTree, threshold: int, resetAfter: ResetAfterArg)
      modifies tree
      ensures this.tree == tree && originalOnError == old(tree.onError)
      ensures tree.onError == CutterHook(this) && tree.callbacks == old(tree.callbacks)
      ensures Config() == Settings(threshold, NormaliseResetAfter(resetAfter), None)
      ensures !errorsAssigned && pending == []
      ensures WellFormed()
    {
      this.tree := tree;
      originalOnError := tree.onError;
      this.threshold := threshold;
      resetAfterSeconds := NormaliseResetAfter(resetAfter);
      tripCallbackSlot := None;
      errors := map[];
      errorsAssigned := false;
      trippedAt := None;
      pending := [];
      new;
      tree.onError := CutterHook(this);
    }

    /** The end of `__init__`, after the `trip_callback` assignment: `errors`
        is created empty and `tripped_at` is None. */
    method InitCounts()
      requires WellFormed()
      modifies this
      ensures Valid() && Config() == old(Config()) && pending == old(pending)
      ensures errors == map[] && trippedAt == None
    {
      errors := map[];
      errorsAssigned := true;
      trippedAt := None;
    }

    /** `Cordcutter(tree, threshold=..., reset_after=..., trip_callback=...)` as
        written: the breaker's hook is installed on the tree before the callback
        is checked, so a non-coroutine callback raises TypeError with the hook
        of the discarded breaker left in place, and that breaker never got its
        `errors`. */
    static method Create(tree: CommandTree, threshold: int, resetAfter: ResetAfterArg, tripCallback: Option<Callback>)
      returns (r: Result<Cordcutter, PyError>)
      modifies tree
      ensures tree.onError.CutterHook? && fresh(tree.onError.cutter)
      ensures tree.onError.cutter.originalOnError == old(tree.onError)
      ensures tree.callbacks == old(tree.callbacks)
      ensures r.Failure? <==> tripCallback.Some? && !tripCallback.value.isCoroutine
      ensures r.Failure? ==> && r.error == TypeError && tree.onError.cutter.tree == tree
                             && tree.onError.cutter.WellFormed() && !tree.onError.cutter.errorsAssigned
      ensures r.Success? ==> && r.value == tree.onError.cutter && r.value.tree == tree && r.value.Valid()
                             && r.value.Config() == Settings(threshold, NormaliseResetAfter(resetAfter), tripCallback)
                             && r.value.State() == BreakerState(map[], None, tree.callbacks, [])
    {
      var cutter := new Cordcutter(tree, threshold, resetAfter);
      var raised := cutter.SetTripCallback(tripCallback);
      if raised.Some? {
        return Failure(raised.value);
      }
      cutter.InitCounts();
      return Success(cutter);
    }

    /** The constructor with the callback checked before the tree is touched:
        on TypeError the tree keeps its error handler. */
    static method CreateChecked(tree: CommandTree, threshold: int, resetAfter: ResetAfterArg, tripCallback: Option<Callback>)
      returns (r: Result<Cordcutter, PyError>)
      modifies tree
      ensures r.Failure? <==> tripCallback.Some? && !tripCallback.value.isCoroutine
      ensures r.Failure? ==> r.error == TypeError && tree.onError == old(tree.onError)
      ensures tree.callbacks == old(tree.callbacks)
      ensures r.Success? ==> && fresh(r.value) && tree.onError == CutterHook(r.value)
                             && r.value.originalOnError == old(tree.onError)
                             && r.value.tree == tree && r.value.Valid()
                             && r.value.Config() == Settings(threshold, NormaliseResetAfter(resetAfter), tripCallback)
                             && r.value.State() == BreakerState(map[], None, tree.callbacks, [])
    {
      if tripCallback.Some? && !tripCallback.value.isCoroutine {
        return Failure(TypeError);
      }
      var cutter := new Cordcutter(tree, threshold, resetAfter);
      var raised := cutter.SetTripCallback(tripCallback);
      cutter.InitCounts();
      return Success(cutter);
    }

    /** The `reset_after` getter: the delay `tripped_breaker` arms its resets with. */
    function ResetAfter(): (r: int)
      reads this
      ensures r == Config().resetAfter
    {
      resetAfterSeconds
    }

    /** The `reset_after` setter: the getter then returns the normalised value. */
    method SetResetAfter(time: ResetAfterArg)
      modifies this
      ensures ResetAfter() == NormaliseResetAfter(time)
      ensures threshold == old(threshold) && tripCallbackSlot == old(tripCallbackSlot)
      ensures State() == old(State()) && errorsAssigned == old(errorsAssigned) && WellFormed() == old(WellFormed())
    {
      resetAfterSeconds := NormaliseResetAfter(time);
    }

    /** The `trip_callback` getter, with a never-assigned callback read as None:
        the callback `tripped_breaker` tests, and on a well-formed breaker
        always a coroutine function. */
    function TripCallback(): (r: Option<Callback>)
      reads this
      ensures r == Config().tripCallback
      ensures WellFormed() && r.Some? ==> r.value.isCoroutine
    {
      tripCallbackSlot
    }

    /** The `trip_callback` setter: None is ignored and keeps the stored
        callback, a coroutine function is stored, anything else raises TypeError
        and changes nothing. */
    method SetTripCallback(callback: Option<Callback>) returns (raised: Option<PyError>)
      modifies this
      ensures raised == if callback.Some? && !callback.value.isCoroutine then Some(TypeError) else None
      ensures TripCallback() == if raised.None? && callback.Some? then callback else old(TripCallback())
      ensures threshold == old(threshold) && resetAfterSeconds == old(resetAfterSeconds)
      ensures State() == old(State()) && errorsAssigned == old(errorsAssigned)
      ensures old(WellFormed()) ==> WellFormed()
    {
      match AssignTripCallback(tripCallbackSlot, callback)
      case Failure(e) =>
        raised := Some(e);
      case Success(slot) =>
        tripCallbackSlot := slot;
        raised := None;
    }

    /** The `on_tripped_call` decorator: stores the callback and hands it back
        unchanged, or lets the setter's TypeError through. */
    method OnTrippedCall(callback: Callback) returns (r: Result<Callback, PyError>)
      modifies this
      ensures r == if callback.isCoroutine then Success(callback) else Failure(TypeError)
      ensures TripCallback() == if callback.isCoroutine then Some(callback) else old(TripCallback())
      ensures threshold == old(threshold) && resetAfterSeconds == old(resetAfterSeconds)
      ensures State() == old(State()) && errorsAssigned == old(errorsAssigned)
      ensures old(WellFormed()) ==> WellFormed()
    {
      var raised := SetTripCallback(Some(callback));
      if raised.Some? {
        return Failure(raised.value);
      }
      return Success(callback);
    }

    /** `_tree_on_error`: the breaker's bookkeeping first, then the same
        interaction and error go to the handler the breaker displaced. */
    method TreeOnError(interaction: Interaction, error: AppCommandError, now: int) returns (forward: Forward)
      requires Valid()
      requires interaction.command.Some? ==> interaction.command.value in tree.callbacks
      modifies this, tree`callbacks
      ensures Valid() && Config() == old(Config())
      ensures State() == HandleFailure(old(State()), old(Config()), interaction, now)
      ensures forward == Forward(originalOnError, interaction, error)
      ensures Consistent(old(State()), threshold) ==> Consistent(State(), threshold)
    {
      HandleCutter(interaction, error, now);
      forward := Forward(originalOnError, interaction, error);
      if Consistent(old(State()), threshold) {
        HandleFailureKeepsConsistent(old(State()), Config(), interaction, now);
      }
    }

    /** `_tree_on_error` as written, on any breaker whose hook is installed:
        on a breaker whose `__init__` raised, reading `errors` raises
        AttributeError for every failure that has a command; otherwise a
        tripping failure with no callback ever stored raises AttributeError
        after storing the count. Either exception leaves `_tree_on_error`
        before the displaced handler is called. */
    method TreeOnErrorAsWritten(interaction: Interaction, error: AppCommandError, now: int)
      returns (r: Result<Forward, PyError>)
      requires WellFormed()
      requires interaction.command.Some? ==> interaction.command.value in tree.callbacks
      modifies this, tree`callbacks
      ensures WellFormed() && Config() == old(Config()) && errorsAssigned == old(errorsAssigned)
      ensures interaction.command.Some? && !errorsAssigned ==>
                r == Failure(AttributeError) && State() == old(State())
      ensures errorsAssigned || interaction.command.None? ==>
                && State() == HandleFailureAsWritten(old(State()), old(Config()), interaction, now).state
                && r == match HandleFailureAsWritten(old(State()), old(Config()), interaction, now).raised
                        case Some(e) => Failure(e)
                        case None => Success(Forward(originalOnError, interaction, error))
    {
      if interaction.command.None? {
        return Success(Forward(originalOnError, interaction, error));
      }
      if !errorsAssigned {
        return Failure(AttributeError);
      }
      var command := interaction.command.value;
      if CountOf(errors, command) < threshold {
        errors := errors[command := CountOf(errors, command) + 1];
        if errors[command] >= threshold {
          if tripCallbackSlot.None? {
            return Failure(AttributeError);
          }
          TrippedBreaker(command, now);
        }
      }
      return Success(Forward(originalOnError, interaction, error));
    }

    /** `handle_cutter`: count a failure of the interaction's command and trip
        the breaker when the count reaches the threshold. */
    method HandleCutter(interaction: Interaction, error: AppCommandError, now: int)
      requires Valid()
      requires interaction.command.Some? ==> interaction.command.value in tree.callbacks
      modifies this, tree`callbacks
      ensures Valid() && Config() == old(Config())
      ensures State() == HandleFailure(old(State()), old(Config()), interaction, now)
    {
      if interaction.command.None? {
        return;
      }
      var command := interaction.command.value;
      if CountOf(errors, command) >= threshold {
        return;
      }
      errors := errors[command := CountOf(errors, command) + 1];
      if errors[command] >= threshold {
        TrippedBreaker(command, now);
      }
    }

    /** `tripped_breaker`: with a callback, record the time, put the wrapper in
        the command's slot and arm the reset that restores the displaced
        handler; without one, do nothing. */
    method TrippedBreaker(command: Command, now: int)
      requires Valid() && command in tree.callbacks
      modifies this, tree`callbacks
      ensures Valid() && Config() == old(Config())
      ensures State() == Trip(old(State()), Config(), command, now)
    {
      if tripCallbackSlot.None? {
        return;
      }
      ghost var before := State();
      var originalCallback := tree.callbacks[command];
      var armed := Schedule(pending, PendingReset(command, originalCallback, now + resetAfterSeconds));
      assert Trip(before, Config(), command, now).pending == armed;
      trippedAt := Some(now);
      tree.callbacks := tree.callbacks[command := TripWrapper(originalCallback)];
      pending := armed;
    }

    /** `reset_breaker`: clear `tripped_at`, put the saved handler back and
        forget the command's count. */
    method ResetBreaker(command: Command, originalCallback: Handler)
      requires Valid()
      modifies this, tree`callbacks
      ensures Valid() && Config() == old(Config())
      ensures State() == Reset(old(State()), command, originalCallback)
    {
      trippedAt := None;
      tree.callbacks := tree.callbacks[command := originalCallback];
      errors := errors - {command};
    }

    /** The event loop runs the earliest armed reset if it is due at `now`. */
    method FireNext(now: int) returns (fired: bool)
      requires Valid()
      modifies this, tree`callbacks
      ensures Valid() && Config() == old(Config())
      ensures fired == Due(old(pending), now)
      ensures State() == if fired then Fire(old(State())) else old(State())
      ensures Consistent(old(State()), threshold) ==> Consistent(State(), threshold)
    {
      if !Due(pending, now) {
        return false;
      }
      var p := pending[0];
      pending := pending[1..];
      ResetBreaker(p.command, p.saved);
      if Consistent(old(State()), threshold) {
        FireKeepsConsistent(old(State()), threshold);
      }
      return true;
    }

    /** The event loop runs every reset due at `now`, earliest first. */
    method FireDue(now: int)
      requires Valid()
      modifies this, tree`callbacks
      ensures Valid() && Config() == old(Config())
      ensures State() == FireAllDue(old(State()), now)
      ensures Consistent(old(State()), threshold) ==> Consistent(State(), threshold)
    {
      while Due(pending, now)
        invariant Valid() && Config() == old(Config())
        invariant FireAllDue(State(), now) == FireAllDue(old(State()), now)
        decreases |pending|
      {
        var fired := FireNext(now);
      }
      if Consistent(old(State()), threshold) {
        FireAllDueKeepsConsistent(old(State()), threshold, now);
      }
    }
  }

  /** The second finding end to end: a constructor call with a callback that is
      not a coroutine function raises TypeError, and the hook it left on the
      tree then raises AttributeError for the next failure of any command,
      which never reaches the handler that was there before. */
  method OrphanedHookRaises(tree: CommandTree, threshold: int, resetAfter: ResetAfterArg, callback: Callback,
                            interaction: Interaction, error: AppCommandError, now: int)
    returns (created: Result<Cordcutter, PyError>, handled: Result<Forward, PyError>)
    requires !callback.isCoroutine
    requires interaction.command.Some? && interaction.command.value in tree.callbacks
    modifies tree
    ensures created == Failure(TypeError) && handled == Failure(AttributeError)
    ensures tree.callbacks == old(tree.callbacks)
  {
    created := Cordcutter.Create(tree, threshold, resetAfter, Some(callback));
    var hook := tree.onError.cutter;
    handled := hook.TreeOnErrorAsWritten(interaction, error, now);
  }
}
