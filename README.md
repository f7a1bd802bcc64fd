# cordcutter — a Dafny model of the `Cordcutter` circuit breaker

`Cordcutter` is a per-command circuit breaker for discord.py application commands.
It installs its own `on_error` on a command tree, in front of the handler that was there before.
It counts each command's failures in `errors`.
On the `threshold`-th failure it puts a fallback wrapper into the command's `_callback` slot.
The wrapper calls the trip callback instead of the command.
The breaker then arms a one-shot `call_later` timer.
After `reset_after` the timer puts the displaced callback back and forgets the count.

The model is split into five modules:

- `Wrappers` (wrappers.dfy): `Option` for Python's `None`, `Result` for a call that may raise.
- `Discord` (discord.dfy): the host values the breaker touches. These are an opaque `Command`, `Interaction`, a callback's positional arguments and `utils.find` over them.
- `Breaker` (breaker.dfy): the breaker's settings and state as values.
  - The state holds the failure counts, `tripped_at`, every command's `_callback` slot and the armed resets.
  - There is one pure function per step: `HandleFailure`, `Trip`, `Reset`, `Fire`, `FireAllDue`.
  - It also holds the wrapper's behaviour and the as-written variants behind the first finding below.
- `BreakerLemmas` (breaker_lemmas.dfy): what those steps guarantee.
  - Counting and tripping.
  - Isolation between commands.
  - The breaker invariant, kept by every step.
  - The trip/reset round trip.
  - The threshold-3, reset-after-5-seconds scenario.
- `Cordcutter` (cordcutter.dfy): the class `Cordcutter` and the host's `CommandTree`.
  - The class holds the source's mutable attributes as fields.
  - Each method's `ensures` ties the new state to the pure step applied to the old state.

Modelling choices:

- A command's `_callback` slot is an entry of `CommandTree.callbacks`, keyed by the command.
- `Handler` is `Original(id)` (the command's own callback) or `TripWrapper(wrapped)` (the breaker's wrapper around what it displaced).
- `call_later` adds a `PendingReset` to a queue kept in due-time order, like the event loop's timer heap.
  - The clock is an integer number of seconds, passed in by the caller as `now`.
  - `FireNext(now)` and `FireDue(now)` stand for the event loop running due timers.
- `_trip_callback` is `Option<Callback>`, with `None` meaning "never assigned".
  - The rest of the model reads a never-assigned callback as `None`.
  - The code as written raises `AttributeError` there instead. See Findings.

Where the code differs from a textbook circuit breaker, the model follows the code:

- With no trip callback a trip arms no timer. The count stays at the threshold, so that command is never counted or tripped again (`NoCallbackSticksAtThreshold`).
- `tripped_at` is one attribute for the whole instance. Any reset clears it, even while another command is still tripped (`TrippedAtIsInstanceWide`).
- The threshold is not validated. With a threshold of 0 or less nothing is ever counted (`NonPositiveThresholdIsInert`).
- When a wrapper's arguments hold no `Interaction`, the callback gets `None`. No error is raised.
- A second trip before the first reset cannot happen while the threshold stays fixed at 1 or more. Every step keeps `Consistent` (`HandleFailureKeepsConsistent`, `FireAllDueKeepsConsistent`), and `Consistent` allows at most one armed reset per command. A second timer can only appear if `threshold` is raised between failures.

## Model

| member | source | states |
|---|---|---|
| `Discord.FirstInteraction` | cordcutter/__init__.py:112 | the position it returns holds the first `Interaction` argument; no argument before it is an interaction; it is the length when there is none |
| `Discord.FindInteraction` | cordcutter/__init__.py:112 | `utils.find` gives None exactly when no argument is an interaction, and otherwise the first interaction among the arguments |
| `Breaker.InsertionPoint` | cordcutter/__init__.py:160-165 | a new timer goes after every armed timer due no later than it and before every timer due later |
| `Breaker.Schedule` | cordcutter/__init__.py:160-165 | arming a reset keeps the timers in due order and adds exactly that one reset |
| `Breaker.RunWrapper` | cordcutter/__init__.py:109-117 | the wrapper never calls the callback it wraps; it calls the trip callback iff one is set, and passes it the first interaction among its positional arguments |
| `Breaker.ReadTripCallbackAsWritten` | cordcutter/__init__.py:87-100 | as written, reading `trip_callback` raises AttributeError exactly when none was ever stored and otherwise yields the stored callback, so it never yields None |
| `Breaker.HandleFailureAsWritten` | cordcutter/__init__.py:129-154 | as written, a failure raises AttributeError exactly when it is the threshold-th failure of a command on a breaker that never got a callback, and then leaves the count stored at the threshold and nothing else changed; otherwise it raises nothing and equals `HandleFailure` |
| `BreakerLemmas.ResetAfterRoundTrip` | cordcutter/__init__.py:73-85 | storing the `reset_after` getter's value back through the setter changes nothing, and the default equals one minute |
| `BreakerLemmas.StoredCallbackIsNeverCleared` | cordcutter/__init__.py:92-100 | after any series of `trip_callback` assignments the slot is empty iff it started empty and none of them was a coroutine function |
| `BreakerLemmas.ConsecutiveFailures` | cordcutter/__init__.py:133-140 | from no entry, n failures of a command leave its count at min(n, threshold), or no entry when threshold ≤ 0; they trip it exactly once, on the threshold-th failure, and never when threshold ≤ 0 |
| `BreakerLemmas.NonPositiveThresholdIsInert` | cordcutter/__init__.py:133-135 | with threshold ≤ 0 a failure changes nothing: no count, no trip |
| `BreakerLemmas.FailureIsolation` | cordcutter/__init__.py:129-140 | a failure of one command leaves every other command's count and slot unchanged, and every other command's armed resets exactly as they were: none added, none removed |
| `BreakerLemmas.FireLeavesOtherCommands` | cordcutter/__init__.py:167-181 | running one command's reset leaves every other command's count, slot and armed resets as they were |
| `BreakerLemmas.NoCallbackSticksAtThreshold` | cordcutter/__init__.py:152-154 | without a callback the tripping failure only stores the count at threshold (slot, `tripped_at`, timers unchanged), and every later failure of that command changes nothing |
| `BreakerLemmas.HandleFailureKeepsConsistent` | cordcutter/__init__.py:129-140 | `handle_cutter` keeps the invariant: counts in [1, threshold]; every armed reset belongs to a command at the threshold whose slot wraps the handler the reset restores; no command has two resets; timers in due order |
| `BreakerLemmas.TripKeepsConsistent` | cordcutter/__init__.py:156-165 | tripping a command whose count just reached the threshold and which has no armed reset keeps the invariant |
| `BreakerLemmas.FireKeepsConsistent` | cordcutter/__init__.py:167-181 | running the earliest reset keeps the invariant |
| `BreakerLemmas.FireAllDueKeepsConsistent` | cordcutter/__init__.py:160-181 | running every due reset keeps the invariant |
| `BreakerLemmas.ArmedCommandIgnoresFailures` | cordcutter/__init__.py:133-135 | while a command's reset is armed, its failures change nothing, so a command trips at most once before its reset |
| `BreakerLemmas.ArmedCommandRunsFallback` | cordcutter/__init__.py:111-115 | while a command's reset is armed, calling its slot runs the wrapper and never the command's own callback |
| `BreakerLemmas.TrippedAtIsInstanceWide` | cordcutter/__init__.py:179 | running one command's reset sets `tripped_at` to None while another command stays wrapped at the threshold |
| `BreakerLemmas.FireAllDueLeavesLaterTimers` | cordcutter/__init__.py:160-165 | after the due resets have run, only later timers remain, and they are the tail of the queue |
| `BreakerLemmas.TripThenResetRoundTrip` | cordcutter/__init__.py:156-181 | with a trip callback set and from a state with no reset armed, the tripping failure wraps the slot, sets `tripped_at` and arms one reset at now + reset_after carrying the pre-trip handler; once it has run, the slot equals its pre-trip value, the count entry is gone and `tripped_at` is None |
| `BreakerLemmas.FireAllDueKeepsSettled` | cordcutter/__init__.py:167-181 | a command whose slot holds a handler, with no count and no armed reset, stays so while other commands' resets run; a None `tripped_at` stays None |
| `BreakerLemmas.QueuedResetRuns` | cordcutter/__init__.py:160-181 | a reset due by now that is its command's only armed one does run: afterwards the command's slot holds the handler it carried, it has no count and no armed reset, and `tripped_at` is None |
| `BreakerLemmas.TripThenResetAmongOthers` | cordcutter/__init__.py:129-181 | with a trip callback set, from any consistent state, with other commands tripped or not, the threshold-th failure of a command followed by the resets due reset_after later puts its pre-trip handler back, removes its count, leaves no reset armed for it and clears `tripped_at` |
| `BreakerLemmas.ThreeStrikesScenario` | cordcutter/__init__.py:119-181 | threshold 3, reset after 5 s: the third failure trips; while tripped, a call runs the trip callback and a further failure changes nothing; the reset has not run 4 s after the trip; 5 s after it the state is the initial one and the command's own callback runs again |
| `BreakerLemmas.NeverAssignedCallbackRaisesAtTrip` | cordcutter/__init__.py:94-95 | on a breaker that never got a callback, the threshold-th failure raises AttributeError as written, after storing the count that the corrected step stores and does nothing else |
| `BreakerLemmas.AttributeErrorOncePerCommand` | cordcutter/__init__.py:133-137 | as written, after that AttributeError the stored count makes every later failure of the same command a plain return that raises nothing and changes nothing |
| `Cordcutter.Cordcutter.constructor` | cordcutter/__init__.py:63-67 | saves the tree's `on_error` and installs the breaker's hook, stores the threshold and the normalised `reset_after`, with no callback, no timers and `errors` not yet created |
| `Cordcutter.Cordcutter.InitCounts` | cordcutter/__init__.py:69-71 | creates `errors` empty and sets `tripped_at` to None, after which the breaker is valid |
| `Cordcutter.Cordcutter.Create` | cordcutter/__init__.py:55-71 | as written: raises TypeError iff the callback is not a coroutine function, and in both cases leaves the new breaker's hook installed on the tree; after the TypeError that breaker has no `errors` |
| `Cordcutter.Cordcutter.CreateChecked` | cordcutter/__init__.py:55-71 | corrected: raises TypeError iff the callback is not a coroutine function, and then leaves the tree's `on_error` untouched |
| `Cordcutter.Cordcutter.ResetAfter` | cordcutter/__init__.py:73-76 | the getter returns the delay `tripped_breaker` arms its resets with |
| `Cordcutter.Cordcutter.TripCallback` | cordcutter/__init__.py:87-90 | the getter returns the callback `tripped_breaker` tests, None when none was stored, and a stored one is always a coroutine function |
| `Cordcutter.Cordcutter.SetResetAfter` | cordcutter/__init__.py:73-85 | afterwards the getter returns the normalised duration: None gives 60 s, n gives n minutes, a timedelta is kept; nothing else changes |
| `Cordcutter.Cordcutter.SetTripCallback` | cordcutter/__init__.py:92-100 | None keeps the stored callback; a non-coroutine raises TypeError and changes nothing; a coroutine function is stored |
| `Cordcutter.Cordcutter.OnTrippedCall` | cordcutter/__init__.py:183-197 | stores the callback and returns it unchanged, or raises TypeError and keeps the old one |
| `Cordcutter.Cordcutter.TreeOnError` | cordcutter/__init__.py:102-106 | does the bookkeeping of `handle_cutter`, then always forwards the same interaction and error to the displaced handler; keeps the invariant |
| `Cordcutter.Cordcutter.TreeOnErrorAsWritten` | cordcutter/__init__.py:102-106 | as written: on a breaker without `errors`, every failure with a command raises AttributeError and changes nothing; otherwise it is `HandleFailureAsWritten`, forwarding the interaction and error to the displaced handler only when nothing was raised |
| `Cordcutter.OrphanedHookRaises` | cordcutter/__init__.py:63-69 | constructing with a non-coroutine callback raises TypeError, and the hook left on the tree then raises AttributeError for the next failure of a command instead of forwarding it |
| `Cordcutter.Cordcutter.HandleCutter` | cordcutter/__init__.py:119-140 | the new state is `HandleFailure` of the old: no command or count ≥ threshold changes nothing; otherwise only that command's count grows by 1, and it trips iff the new count reaches the threshold |
| `Cordcutter.Cordcutter.TrippedBreaker` | cordcutter/__init__.py:142-165 | without a callback nothing changes; with one, `tripped_at` becomes now, the slot holds the wrapper around its old handler, and one reset carrying that handler is armed at now + reset_after |
| `Cordcutter.Cordcutter.ResetBreaker` | cordcutter/__init__.py:167-181 | `tripped_at` becomes None, the slot holds the saved handler, and the command's count entry is removed (a no-op if absent) |
| `Cordcutter.Cordcutter.FireNext` | cordcutter/__init__.py:160-165 | runs `reset_breaker` for the earliest armed reset iff it is due, and removes it from the queue; keeps the invariant |
| `Cordcutter.Cordcutter.FireDue` | cordcutter/__init__.py:160-165 | runs every due reset, earliest first; keeps the invariant |

## Left out

- Logging (cordcutter/__init__.py:150, 153, 177). It changes no state.
- discord.py's classes are opaque values. This covers `CommandTree`, `Interaction`, `AppCommand` and `AppCommandError`. A command's `_callback` is an entry of `CommandTree.callbacks`, so the breaker's methods require the interaction's command to have an entry there.
- `functools.wraps` and the workaround for `CommandSignatureMismatch` (cordcutter/__init__.py:108-110) are left out. They keep the wrapper's signature, which is reflection and not state.
- `iscoroutinefunction` becomes the field `Callback.isCoroutine`.
- The asyncio event loop is a queue of pending resets with an integer clock.
  - Timers due at the same time run in the order they were armed, which asyncio does not promise.
  - `total_seconds()` is a float in Python and an integer number of seconds here.
  - A timedelta with a fraction of a second cannot be expressed.
- The `reset_after` setter also takes floats and other values for `timedelta(minutes=...)`. Only `None`, an int and a timedelta are modelled.
- `datetime.utcnow()` becomes the caller's `now`.
- Awaiting is not modelled. Each step runs without interruption, as the single-threaded event loop runs it between suspension points. The forward to the displaced `on_error` is returned as a `Forward` value and not executed.
- Exceptions raised by the trip callback or by a command's own callback are not modelled. `Invoke` and `RunWrapper` describe which callable is called and with what argument.
- Each `_tree_on_error` awaits the handler it displaced (line 106). The model returns that call as a `Forward` value, so following a chain of several breakers is left to the caller. The lemmas also assume one breaker per tree. Two breakers would share the commands' `_callback` slots, and one breaker's reset could put back the other's wrapper.
- `threshold` is a plain public attribute. `Consistent` and the lemmas about it hold for a threshold that stays fixed, and at least 1.
- A breaker whose construction raised has no `tripped_at` attribute in Python either. Nothing reads `tripped_at`, so the model gives it a value there and tracks only the missing `errors` (`errorsAssigned`).
- The `hybrid_app_command` keyword in example.py and bot-example.py is not a parameter of the constructor. There is no hybrid-command hook in the code, so there is nothing to model. Bot startup, command registration and embeds in those files are left out too.

## Findings

| source | as written | input that shows it | evidently intended | confidence | as-written member | corrected member |
|---|---|---|---|---|---|---|
| cordcutter/__init__.py:94-95 | assigning `None` returns before `_trip_callback` is ever set, so on a breaker built without a callback the `if not self.trip_callback` at line 152 raises AttributeError; the "doing nothing" branch at lines 153-154 is unreachable, and `_tree_on_error` never forwards that failure to the previous handler | `Cordcutter(tree, threshold=1)` with no `on_tripped_call`, then one failing command | the count is stored, a warning is logged and nothing else happens; the error still reaches the previous handler | high; not executed | `Breaker.HandleFailureAsWritten` | `Cordcutter.Cordcutter.HandleCutter` |
| cordcutter/__init__.py:63-68 | the breaker's hook replaces the tree's `on_error` (lines 63-64) before the callback is checked (line 68); when the check raises TypeError, the tree keeps calling the hook of a breaker the caller never got, and since that breaker never reached line 69, its `handle_cutter` raises AttributeError at line 134 on every later failure with a command, so no such failure reaches the previous handler again | `Cordcutter(tree, trip_callback=<plain function>)`, caught, then any failing command | a constructor that raises leaves the tree's `on_error` as it was | medium; not executed | `Cordcutter.Cordcutter.Create` | `Cordcutter.Cordcutter.CreateChecked` |

Both members of the first row are tied together by `BreakerLemmas.NeverAssignedCallbackRaisesAtTrip`. The corrected behaviour's promise, that the count sticks at the threshold and nothing else changes, is `BreakerLemmas.NoCallbackSticksAtThreshold`. As written, the exception is raised once per command, because the count is already stored (`BreakerLemmas.AttributeErrorOncePerCommand`). At the level of the class, `Cordcutter.Cordcutter.TreeOnErrorAsWritten` shows that the exception leaves `_tree_on_error` before the previous handler is called.

In the second row, `Cordcutter.Cordcutter.Create` leaves behind a breaker without `errors`. `Cordcutter.Cordcutter.TreeOnErrorAsWritten` proves that such a breaker raises AttributeError for every failure with a command. `Cordcutter.OrphanedHookRaises` chains the two: the constructor's TypeError, then the AttributeError in place of the forward.
