# wrapitup and shutdown, modelled in Dafny

`wrapitup` lets a long-running Python process find out that it should wind
down. It has three parts:

- a process-wide **shutdown flag**, with `request()`, `reset()` and `requested()`;
- **`catch_signals`**, a reentrant context manager. On entry it installs
  handlers for chosen signals. A caught signal sets the flag and puts the
  previous handlers back. On exit it puts the handlers and the flag back
  as they were before the scope;
- **`Timer`**, a countdown that reads as run out while a shut down is
  requested, and whose verdict freezes when it is stopped.

The older `shutdown` package has the same flag, a non-nestable
`catch_signals`, and `Shutter`, the predecessor of `Timer`. It is modelled
as a separate module so the two versions can be compared.

The model is a set of pure state machines:

- The operating system's signal table is a map from signal to handler.
  A signal with no entry has the default disposition.
- The clock reading (`now`) and the answer of `requested()` are parameters
  of the timer operations.
- The user callback is represented only by whether it raises.
- The two refusals of `signal.signal` are errors of the model: installing a
  handler for SIGKILL or SIGSTOP raises OSError, and putting back `None`
  (what `signal.getsignal` reports for a handler not installed from
  Python) raises TypeError. The loops stop there, leaving what they have
  done so far.

Modules:

| file | module | models |
|---|---|---|
| results.dfy | `Results` | exceptions as `Error` values, `Result`, `Step`, `Answer` |
| floats.dfy | `Floats` | Python floats as a real or ±infinity or NaN, with the comparisons the timers use |
| requests.dfy | `Requests` | the shutdown flag of both packages |
| signals.dfy | `Signals` | signals, handlers, the handler table and the restoring loop |
| callbacks.dfy | `Callbacks` | `_two_pos_args` over a parameter list |
| guard.dfy | `SignalGuard` | `wrapitup`'s `catch_signals`: construction, enter, exit, clear, the installed handler, and nested `with` blocks |
| timers.dfy | `Timers` | `wrapitup`'s `Timer` |
| shutdown.dfy | `Shutdown` | the older `catch_signals` and `Shutter`, and how they compare with the newer ones |

The guard's transitions take a `Revision`:

- `AsWritten` follows the code line by line.
- `Corrected` applies the corrections listed under Findings.

The results for each revision:

- For `Corrected`, `SignalGuard.ScopeRoundTrip` proves the round trip the
  class documentation promises, for blocks nested to any depth.
- For `AsWritten`, the round trip is proved for blocks that do not nest
  (`SignalGuard.FlatScopeRoundTrip`).
- For `AsWritten`, concrete runs exhibit each defect.

## Model

| member | source | states |
|---|---|---|
| Requests.Request | wrapitup/_requests.py:14-16 | after `request()` the flag reads as requested |
| Requests.Reset | wrapitup/_requests.py:19-21 | after `reset()` the flag reads as not requested |
| Requests.WriterLaws | wrapitup/_requests.py:14-26 | both writers are idempotent and ignore the prior state; request then reset from a new flag reads false (the test at tests/test_requests.py:10-15) |
| Requests.LastWriterWins | shutdown/__init__.py:37-49 | after any sequence of `request`/`reset` calls the flag reads as the last call left it, or unchanged if there were none |
| Signals.CatchablePrefix | wrapitup/_catch_signals.py:197-199 | an installing loop gets through exactly the leading signals the system lets a process catch: every signal before the returned index can be caught and the one at it cannot |
| Signals.ReinstallInOrder | wrapitup/_catch_signals.py:229-232 | the restoring loop walks the saved entries in the order they were saved and stops at the first saved `None` (TypeError); every entry before it is reinstalled and deleted, it and every later entry stay saved with their signals untouched, and unsaved signals are untouched |
| Signals.ReinstallComplete | shutdown/__init__.py:52-56 | the restoring loop raises exactly when a saved entry on its walk holds `None`; otherwise it gives every saved signal its saved handler, leaves every other signal as it was, and leaves nothing saved |
| Signals.ReinstallStopsAtFirstNone | shutdown/__init__.py:54-56 | the restoring loop gets exactly as far as the first signal of its walk saved with `None` (`FirstNone`), which is where `signal.signal` refuses |
| Signals.ReinstallNothing | shutdown/__init__.py:54-56 | a walk that meets no saved entry changes no handler and raises nothing |
| Callbacks.SignatureError | wrapitup/_catch_signals.py:31-34 | `signature(f)` raises exactly for a callable that has no inspectable signature: TypeError for an unsupported object, ValueError otherwise; a non-callable returns False before it gets there |
| Callbacks.TallyAsWrittenCounts | wrapitup/_catch_signals.py:33-44 | the loop's `required` counts positional-only parameters and positional-or-keyword ones without a default; `available` counts positional-or-keyword ones, or is infinite after `*args`; any keyword-only parameter rejects |
| Callbacks.TallyCounts | wrapitup/_catch_signals.py:33-44 | the corrected loop counts every positional parameter as available and rejects only keyword-only parameters without a default |
| Callbacks.TwoPosArgsExact | wrapitup/_catch_signals.py:29-45 | the corrected check holds exactly when the argument is callable and a call with two positional arguments binds to it: room for two, defaults past the second, no keyword-only parameter without a default |
| Callbacks.TwoPosArgsAsWrittenSound | wrapitup/_catch_signals.py:29-45 | everything the check as written accepts, the corrected check accepts |
| Callbacks.PositionalOnlyRejected | wrapitup/_catch_signals.py:35-36 | `(signum, frame, /)` takes two positional arguments but the check as written rejects it |
| Callbacks.DefaultedKeywordOnlyRejected | wrapitup/_catch_signals.py:43-44 | `(signum, frame, *, verbose=False)` takes two positional arguments but the check as written rejects it |
| Callbacks.AcceptedShapes | tests/test_catch_signals.py:153-165 | the callback shapes the tests expect to be accepted pass both checks |
| Callbacks.RejectedShapes | tests/test_catch_signals.py:193-216 | the callback shapes the tests expect to be rejected, and a non-callable, fail both checks |
| SignalGuard.NewGuard | wrapitup/_catch_signals.py:163-190 | construction succeeds exactly with a non-empty signal list, an accepted callback (the default if none is given) and, on Windows, only the default signals; the empty list is reported first (ValueError), then a callback without a signature (TypeError or ValueError, as `signature` raises), then a rejected callback (TypeError), then the platform (ValueError); a new guard has an empty stack and depth 0 |
| SignalGuard.DefaultCallbackAccepted | wrapitup/_catch_signals.py:176-178 | leaving the callback out never fails the callback check |
| SignalGuard.InstallAll | wrapitup/_catch_signals.py:197-199 | over signals the system lets it catch, every listed signal gets this guard's handler and every other signal keeps its handler; the snapshot gains an entry per listed signal holding what was there before, corrected for any list and as written for a list without repeats |
| SignalGuard.RestoreUndoesInstall | wrapitup/_catch_signals.py:197-199 | reinstalling the snapshot that entry filled gives back the table from before entry |
| SignalGuard.Clear | wrapitup/_catch_signals.py:221-233 | as written, nothing happens while the stack is shorter than the depth; an empty stack raises IndexError; otherwise the walk over the listed signals raises TypeError exactly when it meets a signal saved with `None`, and exactly the entries before that first `None` are reinstalled and gone from the snapshot, while that entry and every later one stay saved with their handlers unchanged; a complete clear pops the snapshot as written and leaves it empty corrected; flag, depth and baselines never change |
| SignalGuard.Enter | wrapitup/_catch_signals.py:192-204 | one snapshot is pushed and the depth grows by one, even when entry raises; off the main thread it raises ValueError with no handler changed and an empty snapshot; on it, a signal the system does not let a process catch raises OSError with the flag not recorded; it raises in no other case, and a successful entry records the flag |
| SignalGuard.EnterInstalls | wrapitup/_catch_signals.py:197-199 | on the main thread, entry puts this guard's handler on the signals its loop got through, before an uncatchable one or to the end of the list, leaves every other signal alone, and saves the replaced handlers in the new top snapshot |
| SignalGuard.RestoreFlag | wrapitup/_catch_signals.py:215-218 | the flag reads as the recorded baseline afterwards |
| SignalGuard.Exit | wrapitup/_catch_signals.py:206-219 | a clear that raises (IndexError, or TypeError on a saved `None`) is the exit's result, with the depth and the flag unchanged; otherwise the exit keeps the handlers and the stack the clear left (corrected, popping the scope's snapshot), lowers the depth by one and sets the flag back to the recorded baseline |
| SignalGuard.Deliver | wrapitup/_catch_signals.py:244-249 | a handler this guard did not install, another guard's included, is passed the signal and nothing changes; this guard's handler for another signal fails its assertion; this guard's handler for this signal leaves exactly the state of a clear after `request()`, and calls the callback exactly when that clear did not raise |
| SignalGuard.TransitionsKeepValid | wrapitup/_catch_signals.py:194-195 | enter, exit and delivery keep `depth - len(stack)` in {0, 1} (one snapshot per entry when corrected) |
| SignalGuard.ClearIdempotent | wrapitup/_catch_signals.py:227-233 | a clear after a successful clear changes nothing, so a scope's exit after a caught signal reinstalls nothing more |
| SignalGuard.CallbackCannotUndo | wrapitup/_catch_signals.py:246-249 | a raising callback leaves the same state as a returning one, with the flag set |
| SignalGuard.EnteredSignalRestores | wrapitup/_catch_signals.py:59-61 | a listed signal caught in a newly entered scope calls the callback, sets the flag and reinstalls the handlers from before the scope |
| SignalGuard.ClearRestoresTop | wrapitup/_catch_signals.py:229-233 | a clear whose top snapshot holds the guard's signals with handlers that can be put back succeeds and gives every signal its handler from before the scope |
| SignalGuard.ForeignGuardHandlerPassedOn | wrapitup/_catch_signals.py:244-250 | a signal reaching a handler another guard installed, inside this guard's scope, is passed on and leaves this guard's state unchanged |
| SignalGuard.UncatchableSignalHalfInstalls | wrapitup/_catch_signals.py:194-199 | for signals `[SIGINT, SIGKILL, SIGTERM]`, entry raises OSError with SIGINT guarded, SIGTERM untouched, the scope counted with the partial snapshot, and no flag recorded |
| SignalGuard.UnrestorableHandlerBlocksExit | wrapitup/_catch_signals.py:213-218 | a block entered over a handler not installed from Python exits with TypeError: the signal walked before it is restored, the guard's handler stays on it and it stays saved, the depth is not lowered and the flag the body set is not put back |
| SignalGuard.ScopeRoundTrip | wrapitup/_catch_signals.py:63-68 | corrected, a `with` block nested to any depth, with signals caught and the flag changed anywhere in it, leaves the handler table, the flag and the guard as it found them |
| SignalGuard.FlatScopeRoundTrip | wrapitup/_catch_signals.py:63-68 | as written, a block that nests no other block leaves the handler table and the flag as it found them, even after a caught signal, provided no signal is listed twice and no snapshot is already popped |
| SignalGuard.NestedScopesScenario | tests/test_catch_signals.py:252-277 | the nested-scope test: each signal reaches the guard once per scope and the user handler afterwards, and each exit brings back the flag and the handler installed in the enclosing scope |
| SignalGuard.RepeatedSignalStaysGuarded | wrapitup/_catch_signals.py:197-199 | as written, for any state with SIGINT at its default and the flag clear, a guard listing SIGINT twice leaves its own handler on SIGINT after an uneventful block; the next SIGINT sets the flag outside any scope and raises IndexError |
| SignalGuard.NestedExitKeepsInnerBaseline | wrapitup/_catch_signals.py:204 | as written, for any state with the flag clear, an outer block that requests shut down and then runs an inner block exits with the flag set |
| SignalGuard.EarlierSignalDisarmsNestedScope | wrapitup/_catch_signals.py:227-228 | as written, for any state with a user handler on SIGUSR1, after a signal caught in an outer scope a nested scope's signal reinstalls nothing, and the next one reaches the guard again |
| Timers.LimitError | wrapitup/_timer.py:55-58 | a limit is refused unless it is an int or float, with TypeError, or when it is NaN, with ValueError |
| Timers.Start | wrapitup/_timer.py:42-61 | the start time is always the call's clock reading; an accepted limit makes the timer running and unlatched with that limit; a refused one raises and keeps the rest |
| Timers.New | wrapitup/_timer.py:39-40 | construction fails exactly for a refused limit and otherwise gives a running, unlatched timer |
| Timers.Stop | wrapitup/_timer.py:63-75 | the first stop freezes and returns the time elapsed since the start; a stopped timer is left unchanged and its frozen time is returned; as written the latch never changes, corrected a stop under a request latches a running timer |
| Timers.Remaining | wrapitup/_timer.py:77-92 | zero once stopped; zero and latched while running with a request outstanding; otherwise the limit less the elapsed time |
| Timers.Expired | wrapitup/_timer.py:94-112 | leaves the timer as `remaining()` would; once stopped, it is the latch or the frozen time exceeding the limit |
| Timers.StopIdempotent | wrapitup/_timer.py:66-68 | in both revisions, stopping again returns the first stop's value and changes nothing, whatever the clock and the flag |
| Timers.ExpiredWhileRunning | wrapitup/_timer.py:98-101 | while running, `expired()` is `remaining() <= 0`: true under a request, otherwise whether the limit is used up |
| Timers.ResetRevivesRunningTimer | wrapitup/_timer.py:80-82 | while running, a timer expired by a request is not expired once the request is reset, though it latched |
| Timers.StoppedIsFrozen | wrapitup/_timer.py:102-105 | once stopped, neither the clock nor the flag changes `remaining()` (zero) or `expired()`, and neither changes the timer (tests/test_timer.py:68-72, 99-102) |
| Timers.InfiniteLimitNeverRunsOut | tests/test_timer.py:34-46 | with the infinite limit and no request, the time left is infinite and the timer never expires |
| Timers.FiniteLimitCountsDown | tests/test_timer.py:48-64 | a new timer with a finite limit has the whole limit left when asked at once and is not expired if the limit is positive; once the limit has passed it has nothing left and is expired |
| Timers.RequestExpiresFreshTimer | tests/test_timer.py:22-25 | a new timer asked while a request is outstanding is expired |
| Timers.EarlyStopNeverExpires | tests/test_timer.py:68-72 | a timer stopped before its limit, without a latch, is not expired however late it is asked |
| Timers.FailedRestartShiftsEpoch | wrapitup/_timer.py:54-58 | a refused restart of a running timer raises and restarts its countdown from the failed call, with the old limit |
| Timers.LatchRecordsSeenRequest | wrapitup/_timer.py:88-89 | over any sequence of stops, queries and flag changes, the timer ends latched exactly when it began latched or some query made while it ran saw a request; `stop` never latches |
| Timers.StopWithoutQueryMissesRequest | wrapitup/_timer.py:73-75 | a request that no query saw before the stop is not remembered: the stopped timer is not expired |
| Timers.StopRemembersRequest | wrapitup/_timer.py:102-105 | corrected, a timer stopped while a request is outstanding is expired however late it is asked and whatever the flag then says; without a request the corrected stop is the stop as written, and the stop as written ignores the flag |
| Shutdown.Protect | shutdown/__init__.py:103-106 | over signals the system lets it catch, every listed signal gets the guard's handler and others keep theirs; a signal's saved handler is the first one saved, never overwritten; the saving order is the old order followed by each listed signal not saved before, at its first occurrence and in list order (`FirstOccurrences`) |
| Shutdown.ProtectIsCorrectedInstall | shutdown/__init__.py:104-106 | the old installing loop is exactly the corrected installing loop of the newer guard |
| Shutdown.Enter | shutdown/__init__.py:100-110 | an empty signal list raises ValueError before anything else; off the main thread it raises ValueError with nothing changed; a signal the system does not let a process catch raises OSError with the signals before it protected; otherwise every signal is protected; the flag is never changed |
| Shutdown.Clear | shutdown/__init__.py:52-56 | the saved entries are reinstalled along the saving order up to the first one holding `None`, which raises TypeError; exactly the entries before it are reinstalled and gone from the map, it and the later ones stay saved, in order, with their signals untouched; unsaved signals are untouched, a complete clear empties the map, and the flag never changes |
| Shutdown.ClearIdempotent | shutdown/__init__.py:52-56 | a second clear after a complete one changes nothing |
| Shutdown.Exit | shutdown/__init__.py:113-118 | the `finally` clause raises exactly when its clear does and leaves the handlers and the saved map the clear left; after a complete clear the flag reads as recorded, after a raising one it is unchanged |
| Shutdown.Deliver | shutdown/__init__.py:61-70 | the guard's handler for this signal leaves exactly the state of a clear after `request()` and reports TypeError when that clear raised; for another signal it fails its assertion; a handler not installed by this module changes nothing |
| Shutdown.RunBody | shutdown/__init__.py:111-112 | a body stops only at a failed assertion or at a handler that cannot be put back |
| Shutdown.ScopeRoundTrip | shutdown/__init__.py:83-87 | a block entered with nothing saved leaves the handler table, the flag and the saved map as it found them, whatever signals arrive and whatever the body does to the flag |
| Shutdown.UncatchableSignalHalfProtects | shutdown/__init__.py:103-106 | for signals `[SIGINT, SIGKILL]`, entry raises OSError with SIGINT guarded and saved |
| Shutdown.UnrestorableHandlerBlocksFinally | shutdown/__init__.py:113-118 | a block entered over a handler not installed from Python ends its `finally` with TypeError, the guard's handler still installed and the flag the body set not put back |
| Shutdown.InnerExitUnprotectsOuter | shutdown/__init__.py:52-56 | a nested scope's exit reinstalls the handlers the outer scope replaced, leaving the outer scope unprotected |
| Shutdown.StartTimer | shutdown/__init__.py:127-134 | the start time is always the call's clock reading; anything but `None` or a number raises TypeError; `None` means no timeout; NaN is accepted |
| Shutdown.NewShutter | shutdown/__init__.py:123-125 | construction raises TypeError exactly for a non-numeric argument and otherwise gives a running, unlatched shutter started now, whose timeout is infinite for `None` and the given number for a number |
| Shutdown.StopTimer | shutdown/__init__.py:136-146 | the first stop freezes the elapsed time; the latch is never set |
| Shutdown.TimeLeft | shutdown/__init__.py:148-155 | zero once stopped or under a request, latching in the latter case while running |
| Shutdown.TimedOut | shutdown/__init__.py:157-168 | while running, whether the time left is at most zero; stopped, the shutter is unchanged |
| Shutdown.QueriesMatchTimer | shutdown/__init__.py:136-168 | a shutter answers `stop_timer`, `time_left` and `timedout` exactly as a `Timer` with the same fields answers `stop`, `remaining` and `expired`, and `stop_timer` ignores the flag |
| Shutdown.ConstructionAgainstTimer | shutdown/__init__.py:129-132 | for each kind of argument the contract states both outcomes: a non-NaN number gives a shutter and a timer with the same fields, a non-number makes both raise TypeError, `None` gives a shutter with infinite timeout while `Timer` raises TypeError, and NaN gives a shutter while `Timer` raises ValueError |
| Shutdown.NaNTimeoutNeverRunsOut | shutdown/__init__.py:166-168 | a shutter with a NaN timeout times out only through a request seen while it runs |

## Left out

- Logging, and the message text of every exception. The model keeps the exception class and the reason.
- Converting signals given as `int` or `str` (wrapitup/_catch_signals.py:165-173). Signals are an abstract type, and the KeyError and ValueError of the conversion are not modelled.
- Choosing the default signals by `os.name` (wrapitup/_catch_signals.py:141-154). The platform is a parameter, and an unsupported operating system is not modelled.
- `Timer.alarm` (wrapitup/_timer.py:114-145). It wraps the operating system's interval timer.
- `_default_callback` (wrapitup/_catch_signals.py:252-264). It only logs; a callback is modelled only by whether it raises.
- Real signal delivery, and the state of other guard instances. A signal that reaches a handler the guard did not install is taken to return and the block goes on (`SignalGuard.Escaped`); in Python, `SIG_DFL` may end the process and the default SIGINT handler raises KeyboardInterrupt, and neither is modelled. A handler records which guard installed it; a guard passes on a signal that reaches another guard's handler, and what that other guard then does is not modelled.
- The main-thread requirement. It is a boolean parameter of enter: off the main thread, `signal.signal` raises ValueError.
- Thread safety of `threading.Event`, and concurrent use of a timer.
- Float rounding, and the int-to-float conversion of a huge `int` limit, which raises OverflowError in Python. Finite floats are exact reals.
- Timers.Start: the `limit is None` branch of wrapitup/_timer.py:59 is dead (`None` is refused at line 55) and is not modelled.
- Shutdown.StopTimer: the RuntimeError for a shutter whose fields were never set (shutdown/__init__.py:139-142) cannot happen to a constructed shutter and is not modelled.
- Shutdown.Deliver: the `-O` mode of Python, which drops the `assert` in the handler, is not modelled.
- SignalGuard.Deliver: the same `-O` mode, which drops the `assert` at wrapitup/_catch_signals.py:246, is not modelled either.
- SignalGuard.Exit: the value `False` that `__exit__` returns is not modelled. An exception from the block is never suppressed, so the model does not carry it.
- SignalGuard.ScopeRoundTrip: requires every listed signal to be catchable and none to hold a handler not installed from Python, because entry or exit then raises part-way and no round trip happens; `SignalGuard.UncatchableSignalHalfInstalls` and `SignalGuard.UnrestorableHandlerBlocksExit` show what happens instead.
- SignalGuard.FlatScopeRoundTrip: the same requirement, for the same reason.
- SignalGuard.EnteredSignalRestores: the same requirement, for the same reason; a caught signal then reports the TypeError instead of calling the callback.
- SignalGuard.RestoreUndoesInstall: requires catchable signals whose handlers can be put back, for the same reason.
- Shutdown.ScopeRoundTrip: the same requirement, for the same reason; `Shutdown.UncatchableSignalHalfProtects` and `Shutdown.UnrestorableHandlerBlocksFinally` show what happens instead.
- Reading with `requested()` is modelled as a function of the flag (`Requests.Requested`), so it cannot change the flag. No separate lemma says so.

The code is followed where the class documentation differs from it:

- A limit may be negative or negative infinity. The code refuses only non-numbers and NaN.

## Findings

| source | as written | input that shows it | evidently intended | confidence | as-written member | corrected member |
|---|---|---|---|---|---|---|
| wrapitup/_catch_signals.py:35-44 | positional-only parameters count as required but never as available, and any keyword-only parameter rejects the callable | `def cb(signum, frame, /)`, or `def cb(signum, frame, *, verbose=False)` | accept every callable that a call with two positional arguments binds to | medium; not executed | Callbacks.PositionalOnlyRejected | Callbacks.TwoPosArgsExact |
| wrapitup/_catch_signals.py:197-199 | a signal listed twice is saved twice, and the second time the guard's own handler is saved over the original | `catch_signals(signals=[SIGINT, SIGINT])` around an empty block | the first saved handler is kept, as the older `setdefault` loop does | medium; not executed | SignalGuard.RepeatedSignalStaysGuarded | SignalGuard.RestoreUndoesInstall |
| wrapitup/_catch_signals.py:204 | one `_old_requested` serves every open scope, so an inner entry overwrites the outer scope's baseline | outer scope entered with the flag clear; `request()`; inner scope entered and exited; outer scope exits with the flag set | each scope puts back the flag it found | high; not executed | SignalGuard.NestedExitKeepsInnerBaseline | SignalGuard.ScopeRoundTrip |
| wrapitup/_catch_signals.py:227-233 | after a signal pops the outer snapshot, `len(stack) < depth` holds inside every later nested scope, so their signals reinstall nothing | guard on SIGUSR1 over a user handler; enter; SIGUSR1; enter again; SIGUSR1 twice | each scope's signal reinstalls the handlers from before that scope | high; not executed | SignalGuard.EarlierSignalDisarmsNestedScope | SignalGuard.EnteredSignalRestores |
| wrapitup/_timer.py:73-75 | `stop()` never sets the latch, so a request outstanding at the stop that no query saw is forgotten | `request()`, then `t.stop()`, then `t.expired()` on a timer with an infinite limit gives False | `expired()` after `stop()` reports whether a shut down was requested when `stop()` was called (wrapitup/_timer.py:102-105); the older `stop_timer` reads the flag at shutdown/__init__.py:138 and has a dead latch statement at :145 | medium; not executed | Timers.StopWithoutQueryMissesRequest | Timers.StopRemembersRequest |

The `Corrected` revision applies all five corrections:

- The callback check counts every positional parameter as available. It rejects only keyword-only parameters without a default.
- The first saved handler of a signal wins.
- Each open scope keeps its own baseline.
- A clear reinstalls the top snapshot and empties it in place. The scope's exit pops it.
- `stop()` latches a running timer when a request is outstanding.

`Callbacks.DefaultedKeywordOnlyRejected` is the second input of the first row.
