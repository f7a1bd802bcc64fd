/** What the breaker's bookkeeping guarantees, proved about the steps of `Breaker`. */
module BreakerLemmas {
  import opened Wrappers
  import opened Discord
  import opened Breaker

  // ---------------------------------------------------------------------------
  // Settings

  /** Storing what the `reset_after` getter returned changes nothing, and the
      default is the same as one minute. */
  lemma ResetAfterRoundTrip(time: ResetAfterArg)
    ensures NormaliseResetAfter(Delta(NormaliseResetAfter(time))) == NormaliseResetAfter(time)
    ensures NormaliseResetAfter(NoValue) == NormaliseResetAfter(Minutes(1))
  {
  }

  /** The `trip_callback` setter never empties the slot: after any series of
      assignments the slot is empty exactly when it started empty and none of
      them was a coroutine function. */
  lemma {:induction false} StoredCallbackIsNeverCleared(slot: Option<Callback>, callbacks: seq<Option<Callback>>)
    ensures AssignAll(slot, callbacks).None? <==>
              slot.None? && forall i :: 0 <= i < |callbacks| ==> !(callbacks[i].Some? && callbacks[i].value.isCoroutine)
    decreases |callbacks|
  {
    if callbacks != [] {
      var next := match AssignTripCallback(slot, callbacks[0])
                  case Success(v) => v
                  case Failure(_) => slot;
      StoredCallbackIsNeverCleared(next, callbacks[1..]);
      assert forall i :: 1 <= i < |callbacks| ==> callbacks[i] == callbacks[1..][i - 1];
    }
  }

  // ---------------------------------------------------------------------------
  // Counting

  /** The failure table and the number of trips after `n` failures in a row. */
  datatype Tally = Tally(errors: map<Command, nat>, trips: nat)

  /** `n` consecutive failures of `c`, with no reset in between. */
  function RepeatFailures(errors: map<Command, nat>, c: Command, threshold: int, n: nat): Tally
    decreases n
  {
    if n == 0 then Tally(errors, 0)
    else
      var t := RepeatFailures(errors, c, threshold, n - 1);
      var r := RecordFailure(t.errors, c, threshold);
      Tally(r.errors, t.trips + if r.trips then 1 else 0)
  }

  /** From no recorded failure, `n` failures of one command leave its count at
      `min(n, threshold)` (no entry at all when the threshold is not positive)
      and trip it once, on the threshold-th failure; failures after that are
      not counted. */
  lemma {:induction false} ConsecutiveFailures(errors: map<Command, nat>, c: Command, threshold: int, n: nat)
    requires c !in errors
    ensures RepeatFailures(errors, c, threshold, n).errors ==
              if threshold <= 0 || n == 0 then errors
              else errors[c := if n < threshold then n else threshold]
    ensures RepeatFailures(errors, c, threshold, n).trips == if 1 <= threshold <= n then 1 else 0
    decreases n
  {
    if n > 0 {
      ConsecutiveFailures(errors, c, threshold, n - 1);
    }
  }

  /** With a threshold of zero or less nothing is ever counted or tripped. */
  lemma NonPositiveThresholdIsInert(s: BreakerState, cfg: Settings, interaction: Interaction, now: int)
    requires Sorted(s.pending)
    requires interaction.command.Some? ==> interaction.command.value in s.callbacks
    requires cfg.threshold <= 0
    ensures HandleFailure(s, cfg, interaction, now) == s
  {
  }

  /** A failure of one command leaves every other command's count, slot and
      armed resets as they were. */
  lemma FailureIsolation(s: BreakerState, cfg: Settings, interaction: Interaction, now: int, d: Command)
    requires Sorted(s.pending)
    requires interaction.command.Some? ==> interaction.command.value in s.callbacks
    requires interaction.command != Some(d)
    ensures CountOf(HandleFailure(s, cfg, interaction, now).errors, d) == CountOf(s.errors, d)
    ensures d in HandleFailure(s, cfg, interaction, now).callbacks <==> d in s.callbacks
    ensures d in s.callbacks ==> HandleFailure(s, cfg, interaction, now).callbacks[d] == s.callbacks[d]
    ensures forall p :: p in HandleFailure(s, cfg, interaction, now).pending && p.command == d ==> p in s.pending
    ensures forall p :: p in s.pending && p.command == d ==> p in HandleFailure(s, cfg, interaction, now).pending
  {
    var r := HandleFailure(s, cfg, interaction, now);
    forall p | p in r.pending && p.command == d
      ensures p in s.pending
    {
      assert p in multiset(r.pending);
    }
    forall p | p in s.pending && p.command == d
      ensures p in r.pending
    {
      assert p in multiset(s.pending);
    }
  }

  /** Running one command's reset leaves every other command's count, slot and
      armed resets as they were. */
  lemma FireLeavesOtherCommands(s: BreakerState, d: Command)
    requires s.pending != [] && s.pending[0].command != d
    ensures CountOf(Fire(s).errors, d) == CountOf(s.errors, d)
    ensures d in Fire(s).callbacks <==> d in s.callbacks
    ensures d in s.callbacks ==> Fire(s).callbacks[d] == s.callbacks[d]
    ensures forall p :: p in s.pending && p.command == d <==> p in Fire(s).pending && p.command == d
  {
    assert s.pending == [s.pending[0]] + Fire(s).pending;
  }

  /** Without a trip callback the tripping failure only stores the count: the
      slot, `tripped_at` and the timers stay as they were, no reset is armed,
      and every later failure of that command is ignored. */
  lemma NoCallbackSticksAtThreshold(s: BreakerState, cfg: Settings, c: Command, id: nat, now: int, later: int)
    requires Sorted(s.pending) && c in s.callbacks
    requires cfg.tripCallback.None? && CountOf(s.errors, c) + 1 == cfg.threshold
    ensures HandleFailure(s, cfg, Interaction(id, Some(c)), now) == s.(errors := s.errors[c := cfg.threshold])
    ensures HandleFailure(HandleFailure(s, cfg, Interaction(id, Some(c)), now), cfg, Interaction(id, Some(c)), later)
            == HandleFailure(s, cfg, Interaction(id, Some(c)), now)
  {
  }

  // ---------------------------------------------------------------------------
  // The breaker invariant (for a fixed threshold of at least one)

  /** `p` is the reset of a tripped command: its count is at the threshold and
      its slot holds the wrapper around the handler `p` will restore. */
  ghost predicate Armed(s: BreakerState, p: PendingReset, threshold: int)
  {
    && p.command in s.errors && s.errors[p.command] == threshold
    && p.command in s.callbacks && s.callbacks[p.command] == TripWrapper(p.saved)
  }

  /** Every count lies in [1, threshold], every armed reset belongs to a
      tripped command, and no command has two resets armed. */
  ghost predicate Consistent(s: BreakerState, threshold: int)
  {
    && threshold >= 1
    && Sorted(s.pending)
    && (forall c :: c in s.errors ==> 1 <= s.errors[c] <= threshold)
    && (forall k :: 0 <= k < |s.pending| ==> Armed(s, s.pending[k], threshold))
    && (forall a, b :: 0 <= a < b < |s.pending| ==> s.pending[a].command != s.pending[b].command)
  }

  /** `handle_cutter` keeps the invariant. */
  lemma HandleFailureKeepsConsistent(s: BreakerState, cfg: Settings, interaction: Interaction, now: int)
    requires Consistent(s, cfg.threshold)
    requires interaction.command.Some? ==> interaction.command.value in s.callbacks
    ensures Consistent(HandleFailure(s, cfg, interaction, now), cfg.threshold)
  {
    if interaction.command.None? { return; }
    var c := interaction.command.value;
    var t := cfg.threshold;
    if CountOf(s.errors, c) >= t { return; }
    forall k | 0 <= k < |s.pending|
      ensures s.pending[k].command != c
    {
      assert Armed(s, s.pending[k], t);
    }
    var n := CountOf(s.errors, c) + 1;
    var counted := s.(errors := s.errors[c := n]);
    forall k | 0 <= k < |s.pending|
      ensures Armed(counted, s.pending[k], t)
    {
      assert Armed(s, s.pending[k], t);
    }
    assert Consistent(counted, t);
    if n >= t {
      TripKeepsConsistent(counted, cfg, c, now);
    }
  }

  /** Tripping a command whose count has just reached the threshold, and which
      has no reset armed, keeps the invariant. */
  lemma TripKeepsConsistent(s: BreakerState, cfg: Settings, c: Command, now: int)
    requires Consistent(s, cfg.threshold) && c in s.callbacks
    requires c in s.errors && s.errors[c] == cfg.threshold
    requires forall k :: 0 <= k < |s.pending| ==> s.pending[k].command != c
    ensures Consistent(Trip(s, cfg, c, now), cfg.threshold)
  {
    if cfg.tripCallback.None? { return; }
    var t := cfg.threshold;
    var saved := s.callbacks[c];
    var p := PendingReset(c, saved, now + cfg.resetAfter);
    var r := Trip(s, cfg, c, now);
    assert r.errors == s.errors;
    assert r.pending == Schedule(s.pending, p);
    forall k | 0 <= k < |r.pending|
      ensures Armed(r, r.pending[k], t)
    {
      var j := ScheduledFrom(s.pending, p, k);
      if j.Some? {
        assert Armed(s, s.pending[j.value], t);
      }
    }
    forall a, b | 0 <= a < b < |r.pending|
      ensures r.pending[a].command != r.pending[b].command
    {
      var i := ScheduledFrom(s.pending, p, a);
      var j := ScheduledFrom(s.pending, p, b);
    }
  }

  /** Where entry `k` of `Schedule(pending, p)` comes from: `Some(j)` when it is
      `pending[j]` (and entries keep their relative order), None when it is `p`. */
  lemma ScheduledFrom(pending: seq<PendingReset>, p: PendingReset, k: nat) returns (j: Option<nat>)
    requires Sorted(pending) && k <= |pending|
    ensures |Schedule(pending, p)| == |pending| + 1
    ensures j.None? ==> Schedule(pending, p)[k] == p && k == InsertionPoint(pending, p.due)
    ensures j.Some? ==> j.value < |pending| && Schedule(pending, p)[k] == pending[j.value]
                        && (j.value == k || j.value == k - 1)
                        && (j.value == k <==> k < InsertionPoint(pending, p.due))
  {
    var q := InsertionPoint(pending, p.due);
    var r := Schedule(pending, p);
    assert r == pending[..q] + [p] + pending[q..];
    if k < q {
      j := Some(k);
    } else if k == q {
      j := None;
    } else {
      j := Some(k - 1);
    }
  }

  /** Running the earliest reset keeps the invariant. */
  lemma FireKeepsConsistent(s: BreakerState, threshold: int)
    requires Consistent(s, threshold) && s.pending != []
    ensures Consistent(Fire(s), threshold)
  {
    var r := Fire(s);
    var c := s.pending[0].command;
    forall k | 0 <= k < |r.pending|
      ensures Armed(r, r.pending[k], threshold)
    {
      assert r.pending[k] == s.pending[k + 1];
      assert Armed(s, s.pending[k + 1], threshold);
    }
  }

  /** Running every due reset keeps the invariant. */
  lemma {:induction false} FireAllDueKeepsConsistent(s: BreakerState, threshold: int, now: int)
    requires Consistent(s, threshold)
    ensures Consistent(FireAllDue(s, now), threshold)
    decreases |s.pending|
  {
    if Due(s.pending, now) {
      FireKeepsConsistent(s, threshold);
      FireAllDueKeepsConsistent(Fire(s), threshold, now);
    }
  }

  /** A tripped command trips at most once before its reset runs: while its
      reset is armed, its failures change nothing. */
  lemma ArmedCommandIgnoresFailures(s: BreakerState, cfg: Settings, interaction: Interaction, now: int, k: nat)
    requires Consistent(s, cfg.threshold)
    requires k < |s.pending| && interaction.command == Some(s.pending[k].command)
    ensures HandleFailure(s, cfg, interaction, now) == s
  {
    assert Armed(s, s.pending[k], cfg.threshold);
  }

  /** While a command's reset is armed, calling its slot runs the wrapper: the
      trip callback, if any, gets the first interaction, and the command's own
      callback is not called. */
  lemma ArmedCommandRunsFallback(s: BreakerState, threshold: int, k: nat, tripCallback: Option<Callback>, args: seq<Arg>)
    requires Consistent(s, threshold) && k < |s.pending|
    ensures s.pending[k].command in s.callbacks
    ensures Invoke(s.callbacks[s.pending[k].command], tripCallback, args) == RunWrapper(tripCallback, args)
    ensures !Invoke(s.callbacks[s.pending[k].command], tripCallback, args).RanOriginal?
  {
    assert Armed(s, s.pending[k], threshold);
  }

  /** `tripped_at` belongs to the instance: running one command's reset clears
      it while another command is still tripped. */
  lemma TrippedAtIsInstanceWide(s: BreakerState, threshold: int)
    requires Consistent(s, threshold) && |s.pending| >= 2
    ensures Fire(s).trippedAt.None?
    ensures s.pending[1].command in Fire(s).callbacks
    ensures Fire(s).callbacks[s.pending[1].command] == TripWrapper(s.pending[1].saved)
    ensures CountOf(Fire(s).errors, s.pending[1].command) == threshold
  {
    assert Armed(s, s.pending[1], threshold);
    assert s.pending[0].command != s.pending[1].command;
  }

  // ---------------------------------------------------------------------------
  // Trip, then reset

  /** Every timer left after the due ones have run is later than `now`, and
      what is left is the tail of the queue. */
  lemma {:induction false} FireAllDueLeavesLaterTimers(s: BreakerState, now: int)
    requires Sorted(s.pending)
    ensures forall k :: 0 <= k < |FireAllDue(s, now).pending| ==> FireAllDue(s, now).pending[k].due > now
    ensures |FireAllDue(s, now).pending| <= |s.pending|
    ensures FireAllDue(s, now).pending == s.pending[|s.pending| - |FireAllDue(s, now).pending|..]
    decreases |s.pending|
  {
    if Due(s.pending, now) {
      assert Fire(s).pending == s.pending[1..];
      FireAllDueLeavesLaterTimers(Fire(s), now);
    } else if s.pending != [] {
      assert forall k :: 0 <= k < |s.pending| ==> s.pending[0].due <= s.pending[k].due;
    }
  }

  /** The threshold-th failure of a command with a callback set swaps in the
      wrapper and arms one reset carrying the handler it displaced; once that
      reset is due and has run, the slot holds that handler again, the
      command's count is gone and `tripped_at` is None. */
  lemma TripThenResetRoundTrip(s: BreakerState, cfg: Settings, c: Command, id: nat, now: int, later: int)
    requires Sorted(s.pending) && s.pending == []
    requires c in s.callbacks && cfg.tripCallback.Some?
    requires CountOf(s.errors, c) + 1 == cfg.threshold
    requires later >= now + cfg.resetAfter
    ensures HandleFailure(s, cfg, Interaction(id, Some(c)), now) ==
              BreakerState(s.errors[c := cfg.threshold], Some(now),
                           s.callbacks[c := TripWrapper(s.callbacks[c])],
                           [PendingReset(c, s.callbacks[c], now + cfg.resetAfter)])
    ensures FireAllDue(HandleFailure(s, cfg, Interaction(id, Some(c)), now), later) ==
              BreakerState(s.errors - {c}, None, s.callbacks, [])
  {
    var tripped := HandleFailure(s, cfg, Interaction(id, Some(c)), now);
    assert tripped.pending == [PendingReset(c, s.callbacks[c], now + cfg.resetAfter)];
    assert Fire(tripped).pending == [];
    assert s.callbacks[c := TripWrapper(s.callbacks[c])][c := s.callbacks[c]] == s.callbacks;
    assert s.errors[c := cfg.threshold] - {c} == s.errors - {c};
  }

  /** `c` is back to where a reset restoring `saved` leaves it: its slot holds
      `saved`, it has no count and no reset armed. */
  ghost predicate Settled(s: BreakerState, c: Command, saved: Handler)
  {
    && c in s.callbacks && s.callbacks[c] == saved && c !in s.errors
    && forall k :: 0 <= k < |s.pending| ==> s.pending[k].command != c
  }

  /** Resets of other commands leave a settled command settled, and once
      `tripped_at` is None running resets keeps it None. */
  lemma {:induction false} FireAllDueKeepsSettled(s: BreakerState, c: Command, saved: Handler, now: int)
    requires Settled(s, c, saved)
    ensures Settled(FireAllDue(s, now), c, saved)
    ensures s.trippedAt.None? ==> FireAllDue(s, now).trippedAt.None?
    decreases |s.pending|
  {
    if Due(s.pending, now) {
      assert s.pending[0].command != c;
      assert Fire(s).pending == s.pending[1..];
      FireAllDueKeepsSettled(Fire(s), c, saved, now);
    }
  }

  /** A reset that is due by `now`, and the only one armed for its command,
      runs: afterwards its command is settled at the handler it carried and
      `tripped_at` is None. */
  lemma {:induction false} QueuedResetRuns(s: BreakerState, k: nat, now: int)
    requires Sorted(s.pending) && k < |s.pending| && s.pending[k].due <= now
    requires forall j :: 0 <= j < |s.pending| && j != k ==> s.pending[j].command != s.pending[k].command
    ensures Settled(FireAllDue(s, now), s.pending[k].command, s.pending[k].saved)
    ensures FireAllDue(s, now).trippedAt.None?
    decreases |s.pending|
  {
    var p := s.pending[k];
    assert Due(s.pending, now);
    var f := Fire(s);
    assert f.pending == s.pending[1..];
    if k == 0 {
      assert Settled(f, p.command, p.saved);
      FireAllDueKeepsSettled(f, p.command, p.saved, now);
    } else {
      assert f.pending[k - 1] == p;
      QueuedResetRuns(f, k - 1, now);
    }
  }

  /** The round trip with other commands tripped at the same time: from any
      consistent state, the threshold-th failure of `c` followed by running
      every reset due `reset_after` seconds later puts `c`'s pre-trip handler
      back, forgets its count, leaves no reset armed for it and clears
      `tripped_at`. */
  lemma TripThenResetAmongOthers(s: BreakerState, cfg: Settings, c: Command, id: nat, now: int, later: int)
    requires Consistent(s, cfg.threshold)
    requires c in s.callbacks && cfg.tripCallback.Some?
    requires CountOf(s.errors, c) + 1 == cfg.threshold
    requires later >= now + cfg.resetAfter
    ensures Settled(FireAllDue(HandleFailure(s, cfg, Interaction(id, Some(c)), now), later), c, s.callbacks[c])
    ensures FireAllDue(HandleFailure(s, cfg, Interaction(id, Some(c)), now), later).trippedAt.None?
  {
    forall j | 0 <= j < |s.pending|
      ensures s.pending[j].command != c
    {
      assert Armed(s, s.pending[j], cfg.threshold);
    }
    var p := PendingReset(c, s.callbacks[c], now + cfg.resetAfter);
    var tripped := HandleFailure(s, cfg, Interaction(id, Some(c)), now);
    var k := InsertionPoint(s.pending, p.due);
    assert tripped.pending == s.pending[..k] + [p] + s.pending[k..];
    assert tripped.pending[k] == p;
    forall j | 0 <= j < |tripped.pending| && j != k
      ensures tripped.pending[j].command != c
    {
      var i := ScheduledFrom(s.pending, p, j);
    }
    QueuedResetRuns(tripped, k, later);
  }

  /** Three failures with threshold 3 and reset_after of five seconds: the
      third trips, a fourth call runs the trip callback and a fourth failure
      changes nothing, the reset has not run four seconds after the trip, and
      five seconds after it the breaker is back where it started and the
      command's own callback runs again. */
  lemma ThreeStrikesScenario(c: Command, h: nat, cb: Callback, args: seq<Arg>)
    requires cb.isCoroutine
    ensures
      var cfg := Settings(3, NormaliseResetAfter(Delta(5)), Some(cb));
      var fail := Interaction(0, Some(c));
      var s0 := BreakerState(map[], None, map[c := Original(h)], []);
      var s1 := HandleFailure(s0, cfg, fail, 0);
      var s2 := HandleFailure(s1, cfg, fail, 1);
      var s3 := HandleFailure(s2, cfg, fail, 2);
      && s2 == BreakerState(map[c := 2], None, map[c := Original(h)], [])
      && s3 == BreakerState(map[c := 3], Some(2), map[c := TripWrapper(Original(h))], [PendingReset(c, Original(h), 7)])
      && Invoke(s3.callbacks[c], cfg.tripCallback, args) == CalledTripCallback(cb, FindInteraction(args))
      && HandleFailure(s3, cfg, fail, 3) == s3
      && FireAllDue(s3, 6) == s3
      && FireAllDue(s3, 7) == s0
      && Invoke(FireAllDue(s3, 7).callbacks[c], cfg.tripCallback, args) == RanOriginal(h, args)
  {
    var cfg := Settings(3, NormaliseResetAfter(Delta(5)), Some(cb));
    var fail := Interaction(0, Some(c));
    var s0 := BreakerState(map[], None, map[c := Original(h)], []);
    var s1 := HandleFailure(s0, cfg, fail, 0);
    assert s1 == BreakerState(map[c := 1], None, map[c := Original(h)], []);
    var s2 := HandleFailure(s1, cfg, fail, 1);
    assert s2.errors == map[c := 2];
    var s3 := HandleFailure(s2, cfg, fail, 2);
    assert s3.pending == [PendingReset(c, Original(h), 7)];
    assert map[c := TripWrapper(Original(h))][c := Original(h)] == map[c := Original(h)];
    assert map[c := 3] - {c} == map[];
    assert Fire(s3) == s0;
  }

  // ---------------------------------------------------------------------------
  // The code as written

  /** On a breaker that never received a trip callback, the failure that
      reaches the threshold raises AttributeError as written (so `on_error`
      never reaches the previous handler), after storing the count the "no
      callback" branch was meant to store and do nothing else. */
  lemma NeverAssignedCallbackRaisesAtTrip(s: BreakerState, c: Command, id: nat, now: int, threshold: int, resetAfter: int)
    requires Sorted(s.pending) && c in s.callbacks
    requires CountOf(s.errors, c) + 1 == threshold
    ensures HandleFailureAsWritten(s, Settings(threshold, resetAfter, None), Interaction(id, Some(c)), now)
            == Outcome(HandleFailure(s, Settings(threshold, resetAfter, None), Interaction(id, Some(c)), now), Some(AttributeError))
    ensures HandleFailure(s, Settings(threshold, resetAfter, None), Interaction(id, Some(c)), now) == s.(errors := s.errors[c := threshold])
  {
  }

  /** As written the AttributeError comes once per command: the count it
      leaves at the threshold makes every later failure of that command a
      plain return that changes nothing. */
  lemma AttributeErrorOncePerCommand(s: BreakerState, cfg: Settings, c: Command, id: nat, id2: nat, now: int, later: int)
    requires Sorted(s.pending) && c in s.callbacks
    requires HandleFailureAsWritten(s, cfg, Interaction(id, Some(c)), now).raised.Some?
    ensures HandleFailureAsWritten(HandleFailureAsWritten(s, cfg, Interaction(id, Some(c)), now).state, cfg, Interaction(id2, Some(c)), later)
            == Outcome(HandleFailureAsWritten(s, cfg, Interaction(id, Some(c)), now).state, None)
  {
  }
}
