/** The reentrant signal guard of `wrapitup` (`catch_signals`).

    The guard keeps a stack of saved-handler snapshots (`_old_handlers`), a
    nesting counter (`_depth`) and the shutdown flag's value at entry
    (`_old_requested`). The process keeps the signal table and the flag.
    Every transition is a function from one `Process` to the next; the
    operating system, the logger and the user callback are outside it.

    Each transition takes a `Revision`. `AsWritten` follows the code line
    for line. `Corrected` applies the four corrections listed under
    Findings in README.md: the corrected callback check, the first saved
    handler wins when a signal is listed twice, one entry baseline per open
    scope, and a clear that empties the top snapshot in place and leaves the
    pop to the scope's exit. */
module SignalGuard {
  import opened Results
  import opened Requests
  import opened Signals
  import Callbacks

  /** The handlers one scope entry replaced, by signal. Its entries are
      made in the order of the guard's signal list, which is therefore the
      order a clear walks them in. */
  type Snapshot = map<Sig, Handler>

  /** A `catch_signals` instance. `id` tells its handlers apart from those
      of other instances. As written, `baselines` holds at most the one
      value of `_old_requested`; corrected, it holds one value per open
      scope. */
  datatype Guard = Guard(
    id: nat,
    signals: seq<Sig>,
    callback: Callbacks.Candidate,
    stack: seq<Snapshot>,
    depth: int,
    baselines: seq<bool>)

  /** The global state a guard acts on, with the guard itself. */
  datatype Process = Process(handlers: Table, flag: Flag, guard: Guard)

  /** The bound method `_default_callback(signum, stack_frame)`. */
  const DefaultCallback: Callbacks.Candidate :=
    Callbacks.Callable([Callbacks.Param(Callbacks.PositionalOrKeyword, false),
                        Callbacks.Param(Callbacks.PositionalOrKeyword, false)])

  function Last<T>(s: seq<T>): T
    requires |s| > 0
  {
    s[|s| - 1]
  }

  function Pop<T>(s: seq<T>): seq<T>
    requires |s| > 0
  {
    s[..|s| - 1]
  }

  predicate Distinct(sigs: seq<Sig>)
  {
    forall i, j :: 0 <= i < j < |sigs| ==> sigs[i] != sigs[j]
  }

  /** Dropping the first signal of a list without repeats leaves a list
      without repeats that does not hold it. */
  lemma DistinctTail(sigs: seq<Sig>)
    requires sigs != [] && Distinct(sigs)
    ensures Distinct(sigs[1..]) && sigs[0] !in sigs[1..]
  {
    var tail := sigs[1..];
    forall i, j | 0 <= i < j < |tail| ensures tail[i] != tail[j] {
      assert tail[i] == sigs[i + 1] && tail[j] == sigs[j + 1];
    }
    forall i | 0 <= i < |tail| ensures tail[i] != sigs[0] {
      assert tail[i] == sigs[i + 1];
    }
  }

  /** A handler this guard installed. */
  predicate Own(g: Guard, h: Handler)
  {
    h.Guarded? && h.owner == g.id
  }

  // ---------------------------------------------------------------------
  // Construction

  predicate CallbackAccepted(rev: Revision, c: Callbacks.Candidate)
  {
    match rev
    case AsWritten => Callbacks.TwoPosArgsAsWritten(c)
    case Corrected => Callbacks.TwoPosArgs(c)
  }

  /** The callback the guard calls: the given one, or the default. */
  function ChosenCallback(callback: Option<Callbacks.Candidate>): Callbacks.Candidate
  {
    match callback
    case None => DefaultCallback
    case Some(c) => c
  }

  /** On Windows only the default signals may be caught. */
  predicate Supported(platform: Platform, signals: seq<Sig>)
  {
    platform == Windows ==> forall s :: s in signals ==> s in DefaultSignals(Windows)
  }

  /** `catch_signals(signals, callback)`, creating the instance `id`: the
      signals are checked for emptiness first, then the callback (whose
      signature may not be obtainable), then the platform. */
  function NewGuard(rev: Revision, id: nat, signals: seq<Sig>, callback: Option<Callbacks.Candidate>,
                    platform: Platform): (r: Result<Guard>)
    ensures r.Ok? <==> |signals| > 0 && CallbackAccepted(rev, ChosenCallback(callback))
                       && Supported(platform, signals)
    ensures |signals| == 0 ==> r == Err(NoSignalsSelected)
    ensures |signals| > 0 && ChosenCallback(callback).NoSignature? ==>
              r.Err? && (r.error == SignatureUnsupported || r.error == SignatureUnavailable)
              && ClassOf(r.error) == (if ChosenCallback(callback).unsupported then TypeError else ValueError)
    ensures |signals| > 0 && !ChosenCallback(callback).NoSignature?
            && !CallbackAccepted(rev, ChosenCallback(callback)) ==>
              r == Err(CallbackNotTwoPositional)
    ensures r.Err? && r.error != CallbackNotTwoPositional && r.error != SignatureUnsupported ==>
              ClassOf(r.error) == ValueError
    ensures r.Ok? ==> r.value.id == id && r.value.signals == signals && r.value.stack == []
                      && r.value.depth == 0 && r.value.baselines == [] && Valid(rev, r.value)
  {
    var cb := ChosenCallback(callback);
    if |signals| == 0 then Err(NoSignalsSelected)
    else if Callbacks.SignatureError(cb).Some? then Err(Callbacks.SignatureError(cb).value)
    else if !CallbackAccepted(rev, cb) then Err(CallbackNotTwoPositional)
    else if !Supported(platform, signals) then Err(UnsupportedSignal)
    else Ok(Guard(id, signals, cb, [], 0, []))
  }

  /** The default callback passes the check in both revisions, so leaving
      the callback out never raises TypeError. */
  lemma DefaultCallbackAccepted(rev: Revision)
    ensures CallbackAccepted(rev, DefaultCallback)
  {
    Callbacks.AcceptedShapes();
  }

  // ---------------------------------------------------------------------
  // The stack invariant

  /** As written, `_depth - len(_old_handlers)` is 0 or 1: 1 exactly when a
      delivered signal already popped the innermost snapshot. Corrected,
      the stack holds one snapshot per entry. */
  predicate Valid(rev: Revision, g: Guard)
  {
    match rev
    case AsWritten => |g.stack| <= g.depth <= |g.stack| + 1
    case Corrected => g.depth == |g.stack|
  }

  /** Every signal of the guard can be caught, and none of them holds a
      handler that `signal.signal` could not put back. */
  predicate Restorable(p: Process)
  {
    forall s :: s in p.guard.signals ==> Catchable(s) && Get(p.handlers, s) != NotFromPython
  }

  // ---------------------------------------------------------------------
  // Installing

  datatype Installed = Installed(table: Table, saved: Snapshot)

  /** The loop of `__enter__` over signals the system lets it catch:
      install the handler of guard `owner` for each signal in turn and save
      what it replaced in the top snapshot. As written a later occurrence
      of a signal overwrites the saved handler; corrected, the first one
      stays. */
  function InstallAll(rev: Revision, owner: nat, t: Table, saved: Snapshot, sigs: seq<Sig>): (r: Installed)
    requires forall x :: x in sigs ==> Catchable(x)
    ensures forall x :: x in sigs ==> Get(r.table, x) == Guarded(owner, x)
    ensures forall x :: x !in sigs ==> Get(r.table, x) == Get(t, x)
    ensures forall x :: x in r.saved <==> x in saved || x in sigs
    ensures forall x :: x in saved && x !in sigs ==> r.saved[x] == saved[x]
    ensures rev == Corrected ==>
              forall x :: x in r.saved ==> r.saved[x] == if x in saved then saved[x] else Get(t, x)
    ensures rev == AsWritten && Distinct(sigs) ==> forall x :: x in sigs ==> r.saved[x] == Get(t, x)
    decreases |sigs|, 1
  {
    if sigs == [] then Installed(t, saved)
    else
      var h := InstallHead(rev, owner, t, saved, sigs[0]);
      var r := InstallAll(rev, owner, h.table, h.saved, sigs[1..]);
      InstallStepTable(rev, owner, t, saved, sigs, r);
      InstallStepSaved(rev, owner, t, saved, sigs, r);
      InstallStepDistinct(rev, owner, t, saved, sigs, r);
      r
  }

  /** What the recursive call of `InstallAll` works from: the table with
      the first signal installed and the snapshot with it saved. */
  function InstallHead(rev: Revision, owner: nat, t: Table, saved: Snapshot, s: Sig): Installed
  {
    Installed(t[s := Guarded(owner, s)],
              if rev == Corrected && s in saved then saved else saved[s := Get(t, s)])
  }

  /** The induction step of `InstallAll` for the table. */
  lemma InstallStepTable(rev: Revision, owner: nat, t: Table, saved: Snapshot, sigs: seq<Sig>, r: Installed)
    requires sigs != [] && forall x :: x in sigs ==> Catchable(x)
    requires var h := InstallHead(rev, owner, t, saved, sigs[0]);
      r == InstallAll(rev, owner, h.table, h.saved, sigs[1..])
    ensures forall x :: x in sigs ==> Get(r.table, x) == Guarded(owner, x)
    ensures forall x :: x !in sigs ==> Get(r.table, x) == Get(t, x)
    decreases |sigs|, 0
  {
    assert sigs == [sigs[0]] + sigs[1..];
  }

  /** The induction step of `InstallAll` for the saved entries. */
  lemma InstallStepSaved(rev: Revision, owner: nat, t: Table, saved: Snapshot, sigs: seq<Sig>, r: Installed)
    requires sigs != [] && forall x :: x in sigs ==> Catchable(x)
    requires var h := InstallHead(rev, owner, t, saved, sigs[0]);
      r == InstallAll(rev, owner, h.table, h.saved, sigs[1..])
    ensures forall x :: x in r.saved <==> x in saved || x in sigs
    ensures forall x :: x in saved && x !in sigs ==> r.saved[x] == saved[x]
    ensures rev == Corrected ==>
              forall x :: x in r.saved ==> r.saved[x] == if x in saved then saved[x] else Get(t, x)
    decreases |sigs|, 0
  {
    assert sigs == [sigs[0]] + sigs[1..];
  }

  /** The induction step of `InstallAll`, as written, for a list without
      repeats. */
  lemma InstallStepDistinct(rev: Revision, owner: nat, t: Table, saved: Snapshot, sigs: seq<Sig>, r: Installed)
    requires sigs != [] && forall x :: x in sigs ==> Catchable(x)
    requires var h := InstallHead(rev, owner, t, saved, sigs[0]);
      r == InstallAll(rev, owner, h.table, h.saved, sigs[1..])
    ensures rev == AsWritten && Distinct(sigs) ==> forall x :: x in sigs ==> r.saved[x] == Get(t, x)
    decreases |sigs|, 0
  {
    var s := sigs[0];
    var tail := sigs[1..];
    var h := InstallHead(rev, owner, t, saved, s);
    if rev == AsWritten && Distinct(sigs) {
      DistinctTail(sigs);
      forall x | x in sigs ensures r.saved[x] == Get(t, x) {
        if x == s {
          assert x in h.saved && x !in tail;
        } else {
          assert x in tail by { assert sigs == [s] + tail; }
          assert Get(h.table, x) == Get(t, x);
        }
      }
    }
  }

  /** Clearing the snapshot an installation filled, in the order it was
      filled, succeeds and gives back the table from before, for any signal
      list when corrected and for a list without repeats as written,
      provided no signal held a handler that cannot be put back. */
  lemma RestoreUndoesInstall(rev: Revision, owner: nat, t: Table, sigs: seq<Sig>)
    requires forall x :: x in sigs ==> Catchable(x) && Get(t, x) != NotFromPython
    requires rev == AsWritten ==> Distinct(sigs)
    ensures var inst := InstallAll(rev, owner, t, map[], sigs);
      var re := ReinstallInOrder(inst.table, inst.saved, sigs);
      !re.failed && re.left == map[] && Agree(re.table, t)
  {
    var inst := InstallAll(rev, owner, t, map[], sigs);
    ReinstallComplete(inst.table, inst.saved, sigs);
  }

  /** What an installing loop over `done` left: the guard's handlers on
      those signals, every other signal untouched, and a snapshot of those
      signals holding (corrected, or without repeats) what was there. */
  ghost predicate InstalledOver(rev: Revision, p: Process, handlers: Table, top: Snapshot, done: seq<Sig>)
  {
    && (forall s :: s in done ==> Get(handlers, s) == Guarded(p.guard.id, s))
    && (forall s :: s !in done ==> Get(handlers, s) == Get(p.handlers, s))
    && (forall s :: s in top <==> s in done)
    && (rev == Corrected || Distinct(done) ==> forall s :: s in top ==> top[s] == Get(p.handlers, s))
  }

  // ---------------------------------------------------------------------
  // Transitions

  /** `_clear_signal_handlers`. As written it does nothing while fewer
      snapshots than open scopes remain; with no snapshot at all,
      `_old_handlers[-1]` raises IndexError. Otherwise it reinstalls the
      top snapshot's entries in order, deleting each; a `None` among them
      raises TypeError and leaves the rest saved. As written a complete
      clear pops the snapshot; corrected, it stays, empty, on the stack. */
  function Clear(rev: Revision, p: Process): (r: Step<Process>)
    ensures r.after.flag == p.flag && r.after.guard == p.guard.(stack := r.after.guard.stack)
    ensures rev == AsWritten && |p.guard.stack| < p.guard.depth ==> r == Step(p, Done)
    ensures |p.guard.stack| == 0 && (rev == Corrected || p.guard.depth <= 0) ==>
              r == Step(p, Raised(EmptyHandlerStack))
    ensures |p.guard.stack| > 0 && (rev == Corrected || |p.guard.stack| >= p.guard.depth) ==>
              var top := Last(p.guard.stack);
              && (r.status.Raised? <==> exists s :: s in p.guard.signals && s in top && top[s] == NotFromPython)
              && (r.status.Raised? ==> r.status.error == HandlerNotInstallable)
              && (forall s :: s !in top ==> Get(r.after.handlers, s) == Get(p.handlers, s))
              && (r.status.Done? ==>
                    forall s :: s in top ==>
                      Get(r.after.handlers, s) == if s in p.guard.signals then top[s] else Get(p.handlers, s))
              && (rev == AsWritten && r.status.Done? ==> r.after.guard.stack == Pop(p.guard.stack))
              && (rev == Corrected || r.status.Raised? ==>
                    && |r.after.guard.stack| == |p.guard.stack|
                    && Pop(r.after.guard.stack) == Pop(p.guard.stack)
                    && var left := Last(r.after.guard.stack);
                    && (forall s :: s in left ==> s in top && left[s] == top[s]
                                                  && Get(r.after.handlers, s) == Get(p.handlers, s))
                    && (forall s :: s in top && s !in left ==> Get(r.after.handlers, s) == top[s])
                    && (r.status.Done? ==> forall s :: s in left <==> s in top && s !in p.guard.signals))
    ensures rev == Corrected && r.status.Done? ==> |r.after.guard.stack| == |p.guard.stack| > 0
    ensures |p.guard.stack| > 0 && (rev == Corrected || |p.guard.stack| >= p.guard.depth) ==>
              var top := Last(p.guard.stack);
              var k := FirstNone(p.guard.signals, top);
              && (r.status.Raised? <==> k < |p.guard.signals|)
              && (rev == Corrected || r.status.Raised? ==>
                    forall s :: s in Last(r.after.guard.stack) <==> s in top && s !in p.guard.signals[..k])
  {
    var g := p.guard;
    if rev == AsWritten && |g.stack| < g.depth then Step(p, Done)
    else if |g.stack| == 0 then Step(p, Raised(EmptyHandlerStack))
    else
      var re := ReinstallInOrder(p.handlers, Last(g.stack), g.signals);
      ReinstallComplete(p.handlers, Last(g.stack), g.signals);
      ReinstallStopsAtFirstNone(p.handlers, Last(g.stack), g.signals);
      var stack := if rev == AsWritten && !re.failed then Pop(g.stack) else Pop(g.stack) + [re.left];
      assert re.failed || g.signals[..re.reached] == g.signals;
      Step(Process(re.table, p.flag, g.(stack := stack)), if re.failed then Raised(HandlerNotInstallable) else Done)
  }

  /** `__enter__`: push an empty snapshot, count the scope, install the
      guard handler on every signal, and record the flag. Off the main
      thread the first `signal.signal` raises ValueError, after the push
      and the count but before anything is installed. A signal the system
      does not let a process catch raises OSError with the signals before
      it installed and saved and the flag not recorded. */
  function Enter(rev: Revision, p: Process, onMainThread: bool): (r: Step<Process>)
    ensures |r.after.guard.stack| == |p.guard.stack| + 1
    ensures r.after.guard.stack[..|p.guard.stack|] == p.guard.stack
    ensures r.after.guard.depth == p.guard.depth + 1
    ensures r.after.guard.id == p.guard.id && r.after.guard.signals == p.guard.signals
            && r.after.guard.callback == p.guard.callback
    ensures r.after.flag == p.flag
    ensures r.status.Raised? <==>
              |p.guard.signals| > 0 && (!onMainThread || CatchablePrefix(p.guard.signals) < |p.guard.signals|)
    ensures r.status.Raised? ==> r.after.guard.baselines == p.guard.baselines
    ensures !onMainThread && |p.guard.signals| > 0 ==>
              r.status == Raised(NotMainThread) && r.after.handlers == p.handlers
              && Last(r.after.guard.stack) == map[]
    ensures onMainThread && CatchablePrefix(p.guard.signals) < |p.guard.signals| ==>
              r.status == Raised(UncatchableSignal)
    ensures r.status.Done? ==>
              && |r.after.guard.baselines| == (if rev == AsWritten then 1 else |p.guard.baselines| + 1)
              && Last(r.after.guard.baselines) == Requested(p.flag)
              && (rev == Corrected ==> Pop(r.after.guard.baselines) == p.guard.baselines)
  {
    var g := p.guard;
    var k := CatchablePrefix(g.signals);
    if !onMainThread && |g.signals| > 0 then
      Step(Process(p.handlers, p.flag, Guard(g.id, g.signals, g.callback, g.stack + [map[]], g.depth + 1, g.baselines)),
           Raised(NotMainThread))
    else if k < |g.signals| then
      var inst := InstallAll(rev, g.id, p.handlers, map[], g.signals[..k]);
      Step(Process(inst.table, p.flag, Guard(g.id, g.signals, g.callback, g.stack + [inst.saved], g.depth + 1, g.baselines)),
           Raised(UncatchableSignal))
    else
      Installing(rev, p)
  }

  /** The entry that gets through every signal: install over the whole
      list, push the snapshot, count the scope and record the flag. */
  function Installing(rev: Revision, p: Process): Step<Process>
    requires forall s :: s in p.guard.signals ==> Catchable(s)
  {
    var g := p.guard;
    var inst := InstallAll(rev, g.id, p.handlers, map[], g.signals);
    var baselines := if rev == AsWritten then [Requested(p.flag)] else g.baselines + [Requested(p.flag)];
    Step(Process(inst.table, p.flag, g.(stack := g.stack + [inst.saved], depth := g.depth + 1, baselines := baselines)),
         Done)
  }

  /** What the installing loop of `__enter__` leaves: on the main thread,
      the guard's handlers on the signals it got through, everything else
      untouched, and the replaced handlers in the new top snapshot. */
  lemma EnterInstalls(rev: Revision, p: Process, onMainThread: bool)
    ensures var r := Enter(rev, p, onMainThread);
      onMainThread && CatchablePrefix(p.guard.signals) < |p.guard.signals| ==>
        InstalledOver(rev, p, r.after.handlers, Last(r.after.guard.stack),
                      p.guard.signals[..CatchablePrefix(p.guard.signals)])
    ensures var r := Enter(rev, p, onMainThread);
      r.status.Done? ==> InstalledOver(rev, p, r.after.handlers, Last(r.after.guard.stack), p.guard.signals)
  {
  }

  /** On the main thread with every signal catchable, entry installs over
      the whole list and records the flag. */
  lemma EnterFull(rev: Revision, p: Process)
    requires forall s :: s in p.guard.signals ==> Catchable(s)
    ensures var g := p.guard;
      var inst := InstallAll(rev, g.id, p.handlers, map[], g.signals);
      var baselines := if rev == AsWritten then [Requested(p.flag)] else g.baselines + [Requested(p.flag)];
      Enter(rev, p, true)
        == Step(Process(inst.table, p.flag, g.(stack := g.stack + [inst.saved], depth := g.depth + 1, baselines := baselines)),
                Done)
  {
    EnterReachesInstalling(rev, p);
    InstallingUnfolds(rev, p);
  }

  lemma EnterReachesInstalling(rev: Revision, p: Process)
    requires forall s :: s in p.guard.signals ==> Catchable(s)
    ensures Enter(rev, p, true) == Installing(rev, p)
  {
    AllCatchable(p.guard.signals);
  }

  lemma InstallingUnfolds(rev: Revision, p: Process)
    requires forall s :: s in p.guard.signals ==> Catchable(s)
    ensures var g := p.guard;
      var inst := InstallAll(rev, g.id, p.handlers, map[], g.signals);
      var baselines := if rev == AsWritten then [Requested(p.flag)] else g.baselines + [Requested(p.flag)];
      Installing(rev, p)
        == Step(Process(inst.table, p.flag, g.(stack := g.stack + [inst.saved], depth := g.depth + 1, baselines := baselines)),
                Done)
  {
    var g := p.guard;
    var inst := InstallAll(rev, g.id, p.handlers, map[], g.signals);
    var baselines := if rev == AsWritten then [Requested(p.flag)] else g.baselines + [Requested(p.flag)];
    assert Installing(rev, p).after.guard == g.(stack := g.stack + [inst.saved], depth := g.depth + 1, baselines := baselines);
  }

  /** An installing loop over signals that can all be caught gets through
      the whole list. */
  lemma AllCatchable(sigs: seq<Sig>)
    requires forall s :: s in sigs ==> Catchable(s)
    ensures CatchablePrefix(sigs) == |sigs|
  {
  }

  /** Set the flag back to a recorded value with `request()` or `reset()`. */
  function RestoreFlag(f: Flag, baseline: bool): (r: Flag)
    ensures Requested(r) == baseline
  {
    if baseline then Request(f) else Reset(f)
  }

  /** `__exit__`: clear, uncount the scope, and set the flag back to the
      recorded baseline. A clear that raises leaves the count and the flag
      as they were. Corrected, the exit also pops the scope's snapshot and
      its baseline. The block's own exception is never suppressed, so it is
      not part of the state. */
  function Exit(rev: Revision, p: Process): (r: Step<Process>)
    ensures Clear(rev, p).status.Raised? ==>
              r == Clear(rev, p) && r.after.guard.depth == p.guard.depth && r.after.flag == p.flag
    ensures Clear(rev, p).status.Done? ==>
              && r.after.handlers == Clear(rev, p).after.handlers
              && r.after.guard.depth == p.guard.depth - 1
              && r.after.guard.id == p.guard.id
              && r.after.guard.signals == p.guard.signals
              && r.after.guard.callback == p.guard.callback
              && r.after.guard.stack == (if rev == Corrected then Pop(Clear(rev, p).after.guard.stack)
                                         else Clear(rev, p).after.guard.stack)
    ensures Clear(rev, p).status.Done? && |p.guard.baselines| == 0 ==>
              r.status == Raised(NoBaseline) && r.after.flag == p.flag
    ensures r.status.Done? ==> |p.guard.baselines| > 0
                               && Requested(r.after.flag) == Last(p.guard.baselines)
                               && r.after.guard.baselines == (if rev == AsWritten then p.guard.baselines
                                                              else Pop(p.guard.baselines))
    ensures rev == Corrected && r.status.Done? ==> r.after.guard.stack == Pop(p.guard.stack)
  {
    var c := Clear(rev, p);
    if c.status.Raised? then c
    else
      var q := c.after;
      var g := q.guard;
      var stack := if rev == Corrected then Pop(g.stack) else g.stack;
      var uncounted := g.(stack := stack, depth := g.depth - 1);
      if |g.baselines| == 0 then Step(Process(q.handlers, q.flag, uncounted), Raised(NoBaseline))
      else
        var baselines := if rev == Corrected then Pop(g.baselines) else g.baselines;
        Step(Process(q.handlers, RestoreFlag(q.flag, Last(g.baselines)),
                     uncounted.(baselines := baselines)),
             Done)
  }

  /** What became of a delivered signal. */
  datatype Outcome =
    | PassedTo(handler: Handler)              // a handler this guard did not install ran
    | CallbackCalled(sig: Sig, raised: bool)  // the guard handler ran through to the callback
    | Failed(error: Error)                    // the guard handler raised before the callback

  datatype Delivery = Delivery(after: Process, outcome: Outcome)

  /** The operating system delivers `sig` to whatever handler is installed.
      The guard's handler checks the signal, calls `request()`, clears, and
      only then calls the callback, which may raise. A handler this guard
      did not install, another guard's included, is outside the model and
      changes nothing here. */
  function Deliver(rev: Revision, p: Process, sig: Sig, callbackRaises: bool): (r: Delivery)
    ensures !Own(p.guard, Get(p.handlers, sig)) ==> r == Delivery(p, PassedTo(Get(p.handlers, sig)))
    ensures Own(p.guard, Get(p.handlers, sig)) && Get(p.handlers, sig).intended != sig ==>
              r == Delivery(p, Failed(UnexpectedSignal))
    ensures Get(p.handlers, sig) == Guarded(p.guard.id, sig) ==>
              var c := Clear(rev, p.(flag := Request(p.flag)));
              && r.after == c.after
              && Requested(r.after.flag)
              && r.after.guard.depth == p.guard.depth
              && r.after.guard.baselines == p.guard.baselines
              && (r.outcome.CallbackCalled? <==> c.status.Done?)
              && (r.outcome.CallbackCalled? ==> r.outcome == CallbackCalled(sig, callbackRaises))
              && (c.status.Raised? ==> r.outcome == Failed(c.status.error)
                                       && (c.status.error == EmptyHandlerStack
                                           || c.status.error == HandlerNotInstallable))
  {
    var h := Get(p.handlers, sig);
    if !Own(p.guard, h) then Delivery(p, PassedTo(h))
    else if h.intended != sig then Delivery(p, Failed(UnexpectedSignal))
    else
      var c := Clear(rev, p.(flag := Request(p.flag)));
      Delivery(c.after, if c.status.Raised? then Failed(c.status.error) else CallbackCalled(sig, callbackRaises))
  }

  // ---------------------------------------------------------------------
  // Properties of single transitions

  /** Every transition keeps the stack invariant, including the ones that
      raise. */
  lemma TransitionsKeepValid(rev: Revision, p: Process, onMainThread: bool, sig: Sig, raises: bool)
    requires Valid(rev, p.guard)
    ensures Valid(rev, Enter(rev, p, onMainThread).after.guard)
    ensures Valid(rev, Exit(rev, p).after.guard)
    ensures Valid(rev, Deliver(rev, p, sig, raises).after.guard)
  {
    ExitKeepsValid(rev, p);
    DeliverKeepsValid(rev, p, sig, raises);
  }

  lemma ExitKeepsValid(rev: Revision, p: Process)
    requires Valid(rev, p.guard)
    ensures Valid(rev, Exit(rev, p).after.guard)
  {
    var c := Clear(rev, p);
    if c.status.Done? && rev == Corrected {
      assert |Pop(c.after.guard.stack)| == |c.after.guard.stack| - 1;
    }
  }

  lemma DeliverKeepsValid(rev: Revision, p: Process, sig: Sig, raises: bool)
    requires Valid(rev, p.guard)
    ensures Valid(rev, Deliver(rev, p, sig, raises).after.guard)
  {
    var q := p.(flag := Request(p.flag));
    assert Valid(rev, q.guard);
    var c := Clear(rev, q);
  }

  /** Clearing twice is clearing once: after a delivered signal restored
      the handlers, the scope's exit restores nothing more. */
  lemma ClearIdempotent(rev: Revision, p: Process)
    requires Valid(rev, p.guard)
    requires Clear(rev, p).status.Done?
    ensures Clear(rev, Clear(rev, p).after) == Clear(rev, p)
  {
    var q := Clear(rev, p).after;
    if rev == Corrected {
      var left := Last(q.guard.stack);
      ReinstallNothing(q.handlers, left, q.guard.signals);
      assert Pop(q.guard.stack) + [left] == q.guard.stack;
    }
  }

  /** The handler sets the flag and clears before it calls the callback, so
      a raising callback leaves the same state as a returning one. */
  lemma CallbackCannotUndo(rev: Revision, p: Process, sig: Sig)
    ensures Deliver(rev, p, sig, true).after == Deliver(rev, p, sig, false).after
    ensures Get(p.handlers, sig) == Guarded(p.guard.id, sig) ==> Requested(Deliver(rev, p, sig, true).after.flag)
  {
  }

  /** A target signal delivered in a freshly entered scope reinstalls the
      handlers that were there before the scope. As written this needs a
      list without repeats and no snapshot already popped by an earlier
      signal; corrected, it holds from every valid state. */
  lemma EnteredSignalRestores(rev: Revision, p: Process, sig: Sig, raises: bool)
    requires Valid(rev, p.guard) && Restorable(p)
    requires sig in p.guard.signals
    requires rev == AsWritten ==> Distinct(p.guard.signals) && |p.guard.stack| == p.guard.depth
    ensures var e := Enter(rev, p, true);
      var d := Deliver(rev, e.after, sig, raises);
      && e.status.Done?
      && d.outcome == CallbackCalled(sig, raises)
      && Agree(d.after.handlers, p.handlers)
      && Requested(d.after.flag)
  {
    EnterInstalls(rev, p, true);
    var e := Enter(rev, p, true);
    ClearRestoresTop(rev, e.after.(flag := Request(e.after.flag)), p.handlers);
  }

  /** A clear whose top snapshot holds exactly the guard's signals, each
      with a handler that can be put back, succeeds and gives every signal
      the handler `base` gives it, provided the signals outside the
      snapshot already have it. */
  lemma ClearRestoresTop(rev: Revision, q: Process, base: Table)
    requires |q.guard.stack| > 0 && (rev == Corrected || |q.guard.stack| >= q.guard.depth)
    requires forall s :: s in Last(q.guard.stack) <==> s in q.guard.signals
    requires forall s :: s in Last(q.guard.stack) ==>
               Last(q.guard.stack)[s] == Get(base, s) && Get(base, s) != NotFromPython
    requires forall s :: s !in Last(q.guard.stack) ==> Get(q.handlers, s) == Get(base, s)
    ensures Clear(rev, q).status.Done? && Agree(Clear(rev, q).after.handlers, base)
  {
    var top := Last(q.guard.stack);
    ReinstallComplete(q.handlers, top, q.guard.signals);
    var c := Clear(rev, q);
    forall s ensures Get(c.after.handlers, s) == Get(base, s) {
      if s in top {
        assert s in q.guard.signals;
      }
    }
  }

  /** Handlers of another guard are not this guard's business: a signal
      that reaches one, even inside a scope, is passed on and changes
      nothing this guard keeps. */
  lemma ForeignGuardHandlerPassedOn()
    ensures
      var other := Guarded(0, SIGTERM);
      var g := Guard(1, [SIGINT], DefaultCallback, [], 0, []);
      var e := Enter(AsWritten, Process(map[SIGTERM := other], Initial, g), true).after;
      var d := Deliver(AsWritten, e, SIGTERM, false);
      d == Delivery(e, PassedTo(other)) && e.guard.stack == [map[SIGINT := SigDfl]]
  {
    var g := Guard(1, [SIGINT], DefaultCallback, [], 0, []);
    var e := Enter(AsWritten, Process(map[SIGTERM := Guarded(0, SIGTERM)], Initial, g), true).after;
    assert Get(e.handlers, SIGTERM) == Guarded(0, SIGTERM);
  }

  /** A signal that cannot be caught stops entry half way: the guard
      handler is on the signals before it, the later ones are untouched,
      and the scope is counted with its partial snapshot, although the
      `with` body never runs and the scope is never exited. */
  lemma UncatchableSignalHalfInstalls(rev: Revision)
    ensures
      var g := Guard(0, [SIGINT, SIGKILL, SIGTERM], DefaultCallback, [], 0, []);
      var e := Enter(rev, Process(map[], Initial, g), true);
      && e.status == Raised(UncatchableSignal) && ClassOf(e.status.error) == OSError
      && Get(e.after.handlers, SIGINT) == Guarded(0, SIGINT)
      && Get(e.after.handlers, SIGTERM) == SigDfl
      && e.after.guard.stack == [map[SIGINT := SigDfl]] && e.after.guard.depth == 1
      && e.after.guard.baselines == []
  {
    var sigs := [SIGINT, SIGKILL, SIGTERM];
    assert CatchablePrefix(sigs) == 1;
    assert sigs[..1] == [SIGINT];
  }

  /** A handler not installed from Python cannot be put back: the exit of
      a block entered over one restores the signals walked before it,
      leaves the guard handler on it, keeps it saved, and raises TypeError
      before the count and the flag are set back. */
  lemma UnrestorableHandlerBlocksExit(rev: Revision, p: Process)
    requires p.guard == Guard(0, [SIGTERM, SIGINT], DefaultCallback, [], 0, [])
    requires Get(p.handlers, SIGTERM) == SigDfl && Get(p.handlers, SIGINT) == NotFromPython
    ensures var r := RunAction(rev, p, Block([Call(RequestOp)]));
      && r.raised == Some(HandlerNotInstallable)
      && Get(r.after.handlers, SIGTERM) == SigDfl
      && Get(r.after.handlers, SIGINT) == Guarded(0, SIGINT)
      && r.after.guard.stack == [map[SIGINT := NotFromPython]] && r.after.guard.depth == 1
      && Requested(r.after.flag)
  {
    var top := map[SIGTERM := SigDfl, SIGINT := NotFromPython];
    UnrestorableEnter(rev, p, top);
    var e := Enter(rev, p, true);
    BlockAfterEntry(rev, p, [Call(RequestOp)]);
    OneCall(rev, e.after, RequestOp);
    UnrestorableExit(rev, e.after.(flag := Request(e.after.flag)), top);
  }

  lemma UnrestorableEnter(rev: Revision, p: Process, top: Snapshot)
    requires top == map[SIGTERM := SigDfl, SIGINT := NotFromPython]
    requires p.guard == Guard(0, [SIGTERM, SIGINT], DefaultCallback, [], 0, [])
    requires Get(p.handlers, SIGTERM) == SigDfl && Get(p.handlers, SIGINT) == NotFromPython
    ensures var e := Enter(rev, p, true);
      && e.status.Done? && e.after.flag == p.flag
      && e.after.guard == Guard(0, [SIGTERM, SIGINT], DefaultCallback, [top], 1, e.after.guard.baselines)
      && Get(e.after.handlers, SIGINT) == Guarded(0, SIGINT)
  {
    EnterTwo(rev, p, SIGTERM, SIGINT);
  }

  lemma UnrestorableExit(rev: Revision, q: Process, top: Snapshot)
    requires top == map[SIGTERM := SigDfl, SIGINT := NotFromPython]
    requires q.guard == Guard(0, [SIGTERM, SIGINT], DefaultCallback, [top], 1, q.guard.baselines)
    requires Get(q.handlers, SIGINT) == Guarded(0, SIGINT)
    ensures var x := Exit(rev, q);
      && x.status == Raised(HandlerNotInstallable)
      && Get(x.after.handlers, SIGTERM) == SigDfl
      && Get(x.after.handlers, SIGINT) == Guarded(0, SIGINT)
      && x.after.guard.stack == [map[SIGINT := NotFromPython]] && x.after.guard.depth == 1
      && x.after.flag == q.flag
  {
    var re := ReinstallInOrder(q.handlers, top, q.guard.signals);
    ReinstallComplete(q.handlers, top, q.guard.signals);
    assert re.failed;
    assert q.guard.signals[re.reached] == SIGINT;
    assert re.reached == 1;
    assert q.guard.signals[..1] == [SIGTERM];
    assert re.left == map[SIGINT := NotFromPython];
  }

  // ---------------------------------------------------------------------
  // Scopes: `with guard:` blocks, nested to any depth

  /** What a `with` block's body does: receive a signal (whose callback may
      raise), call `request()` or `reset()`, or open a nested `with` block
      on the same guard. */
  datatype Action =
    | Signal(sig: Sig, callbackRaises: bool)
    | Call(op: FlagOp)
    | Block(body: seq<Action>)

  function Size(a: Action): nat
    decreases a
  {
    match a
    case Block(body) => 1 + SizeAll(body)
    case _ => 1
  }

  function SizeAll(body: seq<Action>): nat
    decreases body
  {
    if body == [] then 0 else Size(body[0]) + SizeAll(body[1..])
  }

  /** The state after running actions, and the exception that escaped, if
      any. An exception ends the body it is raised in; the enclosing
      blocks still exit. */
  datatype Run = Run(after: Process, raised: Option<Error>)

  /** The exception a delivery lets escape: the callback's own, or the
      handler's. A signal passed on to a foreign handler is taken to
      return. */
  function Escaped(o: Outcome): (e: Option<Error>)
    ensures e.None? <==> o.PassedTo? || (o.CallbackCalled? && !o.raised)
  {
    match o
    case PassedTo(_) => None
    case CallbackCalled(_, raised) => if raised then Some(CallbackRaised) else None
    case Failed(e) => Some(e)
  }

  function RunBody(rev: Revision, p: Process, body: seq<Action>): Run
    decreases SizeAll(body), 1
  {
    if body == [] then Run(p, None)
    else
      var r := RunAction(rev, p, body[0]);
      if r.raised.Some? then r else RunBody(rev, r.after, body[1..])
  }

  /** One action. A block enters on the main thread; if entering raises,
      neither the body nor the exit runs. Otherwise it runs its body and
      exits whatever the body raised; an exception from the exit replaces
      the body's. */
  function RunAction(rev: Revision, p: Process, a: Action): Run
    decreases Size(a), 0
  {
    match a
    case Signal(sig, raises) =>
      var d := Deliver(rev, p, sig, raises);
      Run(d.after, Escaped(d.outcome))
    case Call(op) => Run(p.(flag := Apply(p.flag, op)), None)
    case Block(body) =>
      var e := Enter(rev, p, true);
      if e.status.Raised? then Run(e.after, Some(e.status.error))
      else
        var b := RunBody(rev, e.after, body);
        var x := Exit(rev, b.after);
        Run(x.after, if x.status.Raised? then Some(x.status.error) else b.raised)
  }

  /** A block whose entry succeeds runs its body and then its exit. */
  lemma BlockAfterEntry(rev: Revision, p: Process, body: seq<Action>)
    requires Enter(rev, p, true).status.Done?
    ensures var b := RunBody(rev, Enter(rev, p, true).after, body);
      var x := Exit(rev, b.after);
      RunAction(rev, p, Block(body)) == Run(x.after, if x.status.Raised? then Some(x.status.error) else b.raised)
  {
  }

  /** A body that only calls `request()` or `reset()` sets the flag and
      raises nothing. */
  lemma OneCall(rev: Revision, q: Process, op: FlagOp)
    ensures RunBody(rev, q, [Call(op)]) == Run(q.(flag := Apply(q.flag, op)), None)
  {
  }

  /** The guard of a scope entered from `p` with `top` as its snapshot. */
  function Opened(p: Process, top: Snapshot): Guard
  {
    p.guard.(stack := p.guard.stack + [top], depth := p.guard.depth + 1,
             baselines := p.guard.baselines + [Requested(p.flag)])
  }

  /** Corrected, inside a scope entered from a restorable `p`: either no
      signal has been caught yet and the guard handlers are in place, or
      one has and the scope's snapshot is empty and the handlers from
      before the scope are back. */
  ghost predicate InScope(p: Process, q: Process)
  {
    && Restorable(p)
    && var inst := InstallAll(Corrected, p.guard.id, p.handlers, map[], p.guard.signals);
    || (q.guard == Opened(p, inst.saved) && Agree(q.handlers, inst.table))
    || (q.guard == Opened(p, map[]) && Agree(q.handlers, p.handlers))
  }

  lemma DeliverStaysInScope(p: Process, q: Process, sig: Sig, raises: bool)
    requires InScope(p, q)
    ensures InScope(p, Deliver(Corrected, q, sig, raises).after)
  {
    if Get(q.handlers, sig) == Guarded(q.guard.id, sig) {
      var flagged := q.(flag := Request(q.flag));
      assert InScope(p, flagged);
      ClearClosesScope(p, flagged);
    }
  }

  lemma EnterOpensScope(p: Process)
    requires Restorable(p)
    ensures Enter(Corrected, p, true).status.Done?
    ensures InScope(p, Enter(Corrected, p, true).after)
  {
    EnterFull(Corrected, p);
  }

  lemma ExitClosesScope(p: Process, q: Process)
    requires InScope(p, q)
    ensures var x := Exit(Corrected, q);
      && x.status.Done?
      && Agree(x.after.handlers, p.handlers) && x.after.flag == p.flag && x.after.guard == p.guard
  {
    ClearClosesScope(p, q);
    var x := Exit(Corrected, q);
    assert Pop(q.guard.baselines) == p.guard.baselines;
    assert x.after.flag == RestoreFlag(q.flag, Requested(p.flag));
  }

  /** Corrected, the clear of a scope's exit reinstalls the handlers from
      before the scope and leaves its snapshot empty on the stack. */
  lemma ClearClosesScope(p: Process, q: Process)
    requires InScope(p, q)
    ensures var c := Clear(Corrected, q);
      && c.status.Done? && c.after.guard == Opened(p, map[]) && c.after.flag == q.flag
      && Agree(c.after.handlers, p.handlers)
  {
    var inst := InstallAll(Corrected, p.guard.id, p.handlers, map[], p.guard.signals);
    if q.guard == Opened(p, map[]) && Agree(q.handlers, p.handlers) {
      ClearOfClearedScope(p, q);
    } else {
      ClearOfFreshScope(p, q, inst);
    }
  }

  /** The clear of a scope whose signal was already caught finds its
      snapshot empty and changes nothing. */
  lemma ClearOfClearedScope(p: Process, q: Process)
    requires q.guard == Opened(p, map[]) && Agree(q.handlers, p.handlers)
    ensures var c := Clear(Corrected, q);
      && c.status.Done? && c.after.guard == Opened(p, map[]) && c.after.flag == q.flag
      && Agree(c.after.handlers, p.handlers)
  {
    ReinstallNothing(q.handlers, map[], q.guard.signals);
    assert Pop(q.guard.stack) == p.guard.stack;
  }

  /** The clear of a scope whose signal was not caught yet reinstalls
      every handler its entry replaced. */
  lemma ClearOfFreshScope(p: Process, q: Process, inst: Installed)
    requires Restorable(p)
    requires inst == InstallAll(Corrected, p.guard.id, p.handlers, map[], p.guard.signals)
    requires q.guard == Opened(p, inst.saved) && Agree(q.handlers, inst.table)
    ensures var c := Clear(Corrected, q);
      && c.status.Done? && c.after.guard == Opened(p, map[]) && c.after.flag == q.flag
      && Agree(c.after.handlers, p.handlers)
  {
    ReinstallComplete(q.handlers, inst.saved, q.guard.signals);
    FreshClearGuard(p, q, inst);
    FreshClearHandlers(p, q, inst);
  }

  lemma FreshClearGuard(p: Process, q: Process, inst: Installed)
    requires Restorable(p)
    requires inst == InstallAll(Corrected, p.guard.id, p.handlers, map[], p.guard.signals)
    requires q.guard == Opened(p, inst.saved)
    requires !ReinstallInOrder(q.handlers, inst.saved, q.guard.signals).failed
    ensures var c := Clear(Corrected, q);
      c.status.Done? && c.after.guard == Opened(p, map[]) && c.after.flag == q.flag
  {
    assert Pop(q.guard.stack) == p.guard.stack;
  }

  lemma FreshClearHandlers(p: Process, q: Process, inst: Installed)
    requires Restorable(p)
    requires inst == InstallAll(Corrected, p.guard.id, p.handlers, map[], p.guard.signals)
    requires q.guard == Opened(p, inst.saved) && Agree(q.handlers, inst.table)
    requires !ReinstallInOrder(q.handlers, inst.saved, q.guard.signals).failed
    ensures Agree(Clear(Corrected, q).after.handlers, p.handlers)
  {
    var c := Clear(Corrected, q);
    forall s ensures Get(c.after.handlers, s) == Get(p.handlers, s) {
    }
  }

  /** Inside a scope, the state is restorable again, so a nested block
      can be entered and left in the same way. */
  lemma InScopeRestorable(p: Process, q: Process)
    requires InScope(p, q)
    ensures Restorable(q) && Valid(Corrected, q.guard) == Valid(Corrected, p.guard)
  {
  }

  /** Corrected: a `with` block entered from a restorable state, whatever
      it nests and whenever signals arrive in it, leaves the signal table,
      the flag and the guard as it found them. */
  lemma {:induction false} ScopeRoundTrip(p: Process, body: seq<Action>)
    requires Valid(Corrected, p.guard) && Restorable(p)
    ensures var r := RunAction(Corrected, p, Block(body));
      Agree(r.after.handlers, p.handlers) && r.after.flag == p.flag && r.after.guard == p.guard
    decreases SizeAll(body), 1
  {
    var e := Enter(Corrected, p, true);
    EnterOpensScope(p);
    BodyStaysInScope(p, e.after, body);
    ExitClosesScope(p, RunBody(Corrected, e.after, body).after);
  }

  lemma {:induction false} BodyStaysInScope(p: Process, q: Process, body: seq<Action>)
    requires Valid(Corrected, p.guard)
    requires InScope(p, q)
    ensures InScope(p, RunBody(Corrected, q, body).after)
    decreases SizeAll(body), 0
  {
    if body != [] {
      var r := RunAction(Corrected, q, body[0]);
      assert SizeAll(body) == Size(body[0]) + SizeAll(body[1..]);
      match body[0] {
        case Signal(sig, raises) =>
          DeliverStaysInScope(p, q, sig, raises);
        case Call(op) =>
        case Block(inner) =>
          InScopeRestorable(p, q);
          ScopeRoundTrip(q, inner);
      }
      if r.raised.None? {
        BodyStaysInScope(p, r.after, body[1..]);
      }
    }
  }

  predicate Flat(body: seq<Action>)
  {
    forall i :: 0 <= i < |body| ==> !body[i].Block?
  }

  /** As written, inside a scope entered from a restorable `p` with a body
      that nests no other scope: before a signal the top snapshot is the
      scope's own; after one, it has been popped while the count stays. */
  ghost predicate InFlatScope(p: Process, q: Process)
  {
    && Restorable(p)
    && var inst := InstallAll(AsWritten, p.guard.id, p.handlers, map[], p.guard.signals);
    var counted := p.guard.(depth := p.guard.depth + 1, baselines := [Requested(p.flag)]);
    || (q.guard == counted.(stack := p.guard.stack + [inst.saved]) && Agree(q.handlers, inst.table))
    || (q.guard == counted && Agree(q.handlers, p.handlers))
  }

  lemma FlatDeliverStaysInScope(p: Process, q: Process, sig: Sig, raises: bool)
    requires Distinct(p.guard.signals) && |p.guard.stack| == p.guard.depth
    requires InFlatScope(p, q)
    ensures InFlatScope(p, Deliver(AsWritten, q, sig, raises).after)
  {
    if Get(q.handlers, sig) != Guarded(q.guard.id, sig) {
      FlatSignalPassed(p, q, sig, raises);
    } else if |q.guard.stack| > |p.guard.stack| {
      FlatSignalInFreshScope(p, q, sig, raises);
    } else {
      FlatSignalAfterPop(p, q, sig, raises);
    }
  }

  /** A signal that does not reach this guard's handler for it changes
      nothing. */
  lemma FlatSignalPassed(p: Process, q: Process, sig: Sig, raises: bool)
    requires Get(q.handlers, sig) != Guarded(q.guard.id, sig)
    ensures Deliver(AsWritten, q, sig, raises).after == q
  {
  }

  /** The first caught signal of a scope restores the handlers from before
      it and pops its snapshot. */
  lemma FlatSignalInFreshScope(p: Process, q: Process, sig: Sig, raises: bool)
    requires Distinct(p.guard.signals) && |p.guard.stack| == p.guard.depth
    requires InFlatScope(p, q)
    requires Get(q.handlers, sig) == Guarded(q.guard.id, sig) && |q.guard.stack| > |p.guard.stack|
    ensures InFlatScope(p, Deliver(AsWritten, q, sig, raises).after)
  {
    var inst := InstallAll(AsWritten, p.guard.id, p.handlers, map[], p.guard.signals);
    FlatClearOfFreshScope(p, q.(flag := Request(q.flag)), inst);
  }

  /** Once the snapshot is popped, a caught signal only sets the flag. */
  lemma FlatSignalAfterPop(p: Process, q: Process, sig: Sig, raises: bool)
    requires |p.guard.stack| == p.guard.depth
    requires InFlatScope(p, q)
    requires Get(q.handlers, sig) == Guarded(q.guard.id, sig) && |q.guard.stack| <= |p.guard.stack|
    ensures Deliver(AsWritten, q, sig, raises).after == q.(flag := Request(q.flag))
  {
  }

  /** As written, the clear of a scope whose signal was not caught yet
      reinstalls every handler its entry replaced and pops its snapshot. */
  lemma FlatClearOfFreshScope(p: Process, q: Process, inst: Installed)
    requires Distinct(p.guard.signals) && Restorable(p)
    requires inst == InstallAll(AsWritten, p.guard.id, p.handlers, map[], p.guard.signals)
    requires q.guard.stack == p.guard.stack + [inst.saved] && q.guard.depth == |q.guard.stack| && q.guard.signals == p.guard.signals
    requires Agree(q.handlers, inst.table)
    ensures var c := Clear(AsWritten, q);
      && c.status.Done? && c.after.guard == q.guard.(stack := p.guard.stack) && c.after.flag == q.flag
      && Agree(c.after.handlers, p.handlers)
  {
    ReinstallComplete(q.handlers, inst.saved, q.guard.signals);
    FlatClearGuard(p, q, inst);
    FlatClearHandlers(p, q, inst);
  }

  lemma FlatClearGuard(p: Process, q: Process, inst: Installed)
    requires q.guard.stack == p.guard.stack + [inst.saved] && q.guard.depth == |q.guard.stack|
    requires !ReinstallInOrder(q.handlers, inst.saved, q.guard.signals).failed
    ensures var c := Clear(AsWritten, q);
      c.status.Done? && c.after.guard == q.guard.(stack := p.guard.stack) && c.after.flag == q.flag
  {
    assert Pop(q.guard.stack) == p.guard.stack;
  }

  lemma FlatClearHandlers(p: Process, q: Process, inst: Installed)
    requires Distinct(p.guard.signals) && Restorable(p)
    requires inst == InstallAll(AsWritten, p.guard.id, p.handlers, map[], p.guard.signals)
    requires q.guard.stack == p.guard.stack + [inst.saved] && q.guard.depth == |q.guard.stack| && q.guard.signals == p.guard.signals
    requires Agree(q.handlers, inst.table)
    requires !ReinstallInOrder(q.handlers, inst.saved, q.guard.signals).failed
    ensures Agree(Clear(AsWritten, q).after.handlers, p.handlers)
  {
    var c := Clear(AsWritten, q);
    forall s ensures Get(c.after.handlers, s) == Get(p.handlers, s) {
    }
  }

  lemma {:induction false} FlatBodyStaysInScope(p: Process, q: Process, body: seq<Action>)
    requires Distinct(p.guard.signals) && |p.guard.stack| == p.guard.depth
    requires InFlatScope(p, q)
    requires Flat(body)
    ensures InFlatScope(p, RunBody(AsWritten, q, body).after)
    decreases |body|
  {
    if body != [] {
      var r := RunAction(AsWritten, q, body[0]);
      if body[0].Signal? {
        FlatDeliverStaysInScope(p, q, body[0].sig, body[0].callbackRaises);
      }
      if r.raised.None? {
        assert Flat(body[1..]) by {
          forall i | 0 <= i < |body[1..]| ensures !body[1..][i].Block? {
            assert body[1..][i] == body[i + 1];
          }
        }
        FlatBodyStaysInScope(p, r.after, body[1..]);
      }
    }
  }

  lemma FlatEnterOpensScope(p: Process)
    requires Restorable(p)
    ensures Enter(AsWritten, p, true).status.Done?
    ensures InFlatScope(p, Enter(AsWritten, p, true).after)
  {
    EnterFull(AsWritten, p);
  }

  lemma FlatExitClosesScope(p: Process, q: Process)
    requires Distinct(p.guard.signals) && |p.guard.stack| == p.guard.depth
    requires InFlatScope(p, q)
    ensures var x := Exit(AsWritten, q);
      && x.status.Done?
      && Agree(x.after.handlers, p.handlers) && x.after.flag == p.flag
      && x.after.guard == p.guard.(baselines := [Requested(p.flag)])
  {
    var inst := InstallAll(AsWritten, p.guard.id, p.handlers, map[], p.guard.signals);
    if |q.guard.stack| > |p.guard.stack| {
      FlatClearOfFreshScope(p, q, inst);
    }
    var x := Exit(AsWritten, q);
    assert x.after.flag == RestoreFlag(q.flag, Requested(p.flag));
  }

  /** As written, a block that nests no other block, entered from a
      restorable state with no snapshot already popped and with no signal
      listed twice, leaves the signal table, the flag and the stack as it
      found them, even when a signal was caught inside it. */
  lemma FlatScopeRoundTrip(p: Process, body: seq<Action>)
    requires Distinct(p.guard.signals) && |p.guard.stack| == p.guard.depth && Restorable(p)
    requires Flat(body)
    ensures var r := RunAction(AsWritten, p, Block(body));
      && Agree(r.after.handlers, p.handlers) && r.after.flag == p.flag
      && r.after.guard == p.guard.(baselines := [Requested(p.flag)])
  {
    var e := Enter(AsWritten, p, true);
    FlatEnterOpensScope(p);
    FlatBodyStaysInScope(p, e.after, body);
    FlatExitClosesScope(p, RunBody(AsWritten, e.after, body).after);
  }

  // ---------------------------------------------------------------------
  // Concrete runs

  /** The state of the scenario below inside the outer scope, with the
      user handler on SIGUSR2 and the guard handler on SIGUSR1. */
  ghost predicate OuterScopeOfScenario(q: Process)
  {
    var g := Guard(0, [SIGUSR1, SIGUSR2], DefaultCallback, [], 0, []);
    && q.guard == g.(stack := [map[SIGUSR1 := UserHandler(0), SIGUSR2 := SigDfl]], depth := 1, baselines := [false])
    && Get(q.handlers, SIGUSR1) == Guarded(0, SIGUSR1) && Get(q.handlers, SIGUSR2) == UserHandler(0)
    && !Requested(q.flag)
  }

  lemma InnerScopeOfScenario(rev: Revision, q: Process)
    requires OuterScopeOfScenario(q)
    ensures
      var e := Enter(rev, q, true).after;
      var d1 := Deliver(rev, e, SIGUSR2, false);
      var d2 := Deliver(rev, d1.after, SIGUSR2, false);
      var x := Exit(rev, d2.after).after;
      && !Requested(e.flag)
      && d1.outcome == CallbackCalled(SIGUSR2, false) && Requested(d1.after.flag)
      && d2.outcome == PassedTo(UserHandler(0))
      && OuterScopeOfScenario(x)
  {
    var e := Enter(rev, q, true).after;
    InnerSignalOfScenario(rev, q);
    var d1 := Deliver(rev, e, SIGUSR2, false);
    var d2 := Deliver(rev, d1.after, SIGUSR2, false);
    assert d2.after == d1.after;
    InnerExitOfScenario(rev, d2.after);
  }

  lemma InnerSignalOfScenario(rev: Revision, q: Process)
    requires OuterScopeOfScenario(q)
    ensures
      var e := Enter(rev, q, true).after;
      var d := Deliver(rev, e, SIGUSR2, false);
      && !Requested(e.flag)
      && d.outcome == CallbackCalled(SIGUSR2, false) && Requested(d.after.flag)
      && d.after.guard == e.guard.(stack := if rev == AsWritten then [q.guard.stack[0]]
                                            else [q.guard.stack[0], map[]])
      && e.guard.depth == 2 && e.guard.baselines == (if rev == AsWritten then [false] else [false, false])
      && Get(d.after.handlers, SIGUSR2) == UserHandler(0) && Get(d.after.handlers, SIGUSR1) == Guarded(0, SIGUSR1)
  {
    EnterTwo(rev, q, SIGUSR1, SIGUSR2);
    InnerSignalAfterEntry(rev, q, Enter(rev, q, true).after);
  }

  lemma InnerSignalAfterEntry(rev: Revision, q: Process, e: Process)
    requires OuterScopeOfScenario(q)
    requires e.flag == q.flag
    requires e.guard == q.guard.(stack := q.guard.stack + [map[SIGUSR1 := Guarded(0, SIGUSR1), SIGUSR2 := UserHandler(0)]],
                                 depth := 2,
                                 baselines := if rev == AsWritten then [false] else [false, false])
    requires e.handlers == q.handlers[SIGUSR1 := Guarded(0, SIGUSR1)][SIGUSR2 := Guarded(0, SIGUSR2)]
    ensures
      var d := Deliver(rev, e, SIGUSR2, false);
      && !Requested(e.flag)
      && d.outcome == CallbackCalled(SIGUSR2, false) && Requested(d.after.flag)
      && d.after.guard == e.guard.(stack := if rev == AsWritten then [q.guard.stack[0]]
                                            else [q.guard.stack[0], map[]])
      && Get(d.after.handlers, SIGUSR2) == UserHandler(0) && Get(d.after.handlers, SIGUSR1) == Guarded(0, SIGUSR1)
  {
    var S2 := map[SIGUSR1 := Guarded(0, SIGUSR1), SIGUSR2 := UserHandler(0)];
    assert e.guard.stack == [q.guard.stack[0], S2];
    InnerSignalClears(rev, e, S2);
  }

  lemma InnerSignalClears(rev: Revision, e: Process, top: Snapshot)
    requires top == map[SIGUSR1 := Guarded(0, SIGUSR1), SIGUSR2 := UserHandler(0)]
    requires e.guard.id == 0 && e.guard.signals == [SIGUSR1, SIGUSR2] && |e.guard.stack| == 2
    requires Last(e.guard.stack) == top && e.guard.depth == 2
    requires Get(e.handlers, SIGUSR2) == Guarded(0, SIGUSR2)
    ensures var d := Deliver(rev, e, SIGUSR2, false);
      && d.outcome == CallbackCalled(SIGUSR2, false) && Requested(d.after.flag)
      && d.after.guard == e.guard.(stack := if rev == AsWritten then [e.guard.stack[0]]
                                            else [e.guard.stack[0], map[]])
      && Get(d.after.handlers, SIGUSR2) == UserHandler(0) && Get(d.after.handlers, SIGUSR1) == Guarded(0, SIGUSR1)
  {
    ReinstallTwo(e.handlers, SIGUSR1, SIGUSR2, Guarded(0, SIGUSR1), UserHandler(0));
    assert Pop(e.guard.stack) == [e.guard.stack[0]];
  }

  lemma InnerExitOfScenario(rev: Revision, d: Process)
    requires d.guard.id == 0 && d.guard.signals == [SIGUSR1, SIGUSR2] && d.guard.callback == DefaultCallback
    requires d.guard.depth == 2 && d.guard.baselines == (if rev == AsWritten then [false] else [false, false])
    requires d.guard.stack == (if rev == AsWritten then [map[SIGUSR1 := UserHandler(0), SIGUSR2 := SigDfl]]
                               else [map[SIGUSR1 := UserHandler(0), SIGUSR2 := SigDfl], map[]])
    requires Get(d.handlers, SIGUSR1) == Guarded(0, SIGUSR1) && Get(d.handlers, SIGUSR2) == UserHandler(0)
    ensures OuterScopeOfScenario(Exit(rev, d).after)
  {
    if rev == Corrected {
      InnerExitCorrected(d);
    } else {
      InnerExitAsWritten(d);
    }
  }

  /** As written, the inner clear already popped the inner snapshot, so the
      inner exit only sets the flag back. */
  lemma InnerExitAsWritten(d: Process)
    requires d.guard.id == 0 && d.guard.signals == [SIGUSR1, SIGUSR2] && d.guard.callback == DefaultCallback
    requires d.guard.depth == 2 && d.guard.baselines == [false]
    requires d.guard.stack == [map[SIGUSR1 := UserHandler(0), SIGUSR2 := SigDfl]]
    requires Get(d.handlers, SIGUSR1) == Guarded(0, SIGUSR1) && Get(d.handlers, SIGUSR2) == UserHandler(0)
    ensures OuterScopeOfScenario(Exit(AsWritten, d).after)
  {
  }

  /** Corrected, the inner exit reinstalls the emptied inner snapshot, which
      changes nothing, and pops it. */
  lemma InnerExitCorrected(d: Process)
    requires d.guard.id == 0 && d.guard.signals == [SIGUSR1, SIGUSR2] && d.guard.callback == DefaultCallback
    requires d.guard.depth == 2 && d.guard.baselines == [false, false]
    requires d.guard.stack == [map[SIGUSR1 := UserHandler(0), SIGUSR2 := SigDfl], map[]]
    requires Get(d.handlers, SIGUSR1) == Guarded(0, SIGUSR1) && Get(d.handlers, SIGUSR2) == UserHandler(0)
    ensures OuterScopeOfScenario(Exit(Corrected, d).after)
  {
    ReinstallNothing(d.handlers, map[], d.guard.signals);
  }

  lemma OuterSignalsOfScenario(rev: Revision, q: Process)
    requires OuterScopeOfScenario(q)
    ensures
      var d3 := Deliver(rev, q, SIGUSR1, false);
      var d4 := Deliver(rev, d3.after, SIGUSR1, false);
      var x := Exit(rev, d4.after).after;
      && d3.outcome == CallbackCalled(SIGUSR1, false) && Requested(d3.after.flag)
      && d4.outcome == PassedTo(UserHandler(0))
      && !Requested(x.flag) && Get(x.handlers, SIGUSR2) == SigDfl && Get(x.handlers, SIGUSR1) == UserHandler(0)
  {
    OuterSignalClears(rev, q, q.guard.stack[0]);
    var d3 := Deliver(rev, q, SIGUSR1, false);
    assert d3.after.handlers == Deliver(rev, d3.after, SIGUSR1, false).after.handlers;
    OuterExitOfScenario(rev, Deliver(rev, d3.after, SIGUSR1, false).after);
  }

  lemma OuterSignalClears(rev: Revision, q: Process, top: Snapshot)
    requires top == map[SIGUSR1 := UserHandler(0), SIGUSR2 := SigDfl]
    requires q.guard == Guard(0, [SIGUSR1, SIGUSR2], DefaultCallback, [top], 1, [false])
    requires Get(q.handlers, SIGUSR1) == Guarded(0, SIGUSR1)
    ensures var d := Deliver(rev, q, SIGUSR1, false);
      && d.outcome == CallbackCalled(SIGUSR1, false) && Requested(d.after.flag)
      && d.after.guard == q.guard.(stack := if rev == AsWritten then [] else [map[]])
      && Get(d.after.handlers, SIGUSR1) == UserHandler(0) && Get(d.after.handlers, SIGUSR2) == SigDfl
  {
    ReinstallComplete(q.handlers, top, [SIGUSR1, SIGUSR2]);
  }

  lemma OuterExitOfScenario(rev: Revision, d: Process)
    requires d.guard == Guard(0, [SIGUSR1, SIGUSR2], DefaultCallback, if rev == AsWritten then [] else [map[]], 1, [false])
    requires Get(d.handlers, SIGUSR1) == UserHandler(0) && Get(d.handlers, SIGUSR2) == SigDfl
    ensures var x := Exit(rev, d).after;
      !Requested(x.flag) && Get(x.handlers, SIGUSR2) == SigDfl && Get(x.handlers, SIGUSR1) == UserHandler(0)
  {
    if rev == Corrected {
      ReinstallNothing(d.handlers, map[], d.guard.signals);
    }
  }

  /** Nested scopes on one guard for SIGUSR1 and SIGUSR2, with a user
      handler on SIGUSR1 from the start and put on SIGUSR2 inside the outer
      scope. Each signal reaches the guard once per scope and the user
      handler after that, and both exits bring the flag and the handlers
      back. Both revisions agree here. */
  lemma NestedScopesScenario(rev: Revision)
    ensures
      var user := UserHandler(0);
      var g := Guard(0, [SIGUSR1, SIGUSR2], DefaultCallback, [], 0, []);
      var p0 := Process(map[SIGUSR1 := user], Initial, g);
      var e1 := Enter(rev, p0, true).after;
      var p1 := e1.(handlers := e1.handlers[SIGUSR2 := user]);
      var e2 := Enter(rev, p1, true).after;
      var d1 := Deliver(rev, e2, SIGUSR2, false);
      var d2 := Deliver(rev, d1.after, SIGUSR2, false);
      var x2 := Exit(rev, d2.after).after;
      var d3 := Deliver(rev, x2, SIGUSR1, false);
      var d4 := Deliver(rev, d3.after, SIGUSR1, false);
      var x1 := Exit(rev, d4.after).after;
      && !Requested(e2.flag)
      && d1.outcome == CallbackCalled(SIGUSR2, false) && Requested(d1.after.flag)
      && d2.outcome == PassedTo(user)
      && !Requested(x2.flag) && Get(x2.handlers, SIGUSR2) == user
      && d3.outcome == CallbackCalled(SIGUSR1, false) && Requested(d3.after.flag)
      && d4.outcome == PassedTo(user)
      && !Requested(x1.flag) && Get(x1.handlers, SIGUSR2) == SigDfl && Get(x1.handlers, SIGUSR1) == user
  {
    var user := UserHandler(0);
    var g := Guard(0, [SIGUSR1, SIGUSR2], DefaultCallback, [], 0, []);
    var p0 := Process(map[SIGUSR1 := user], Initial, g);
    OuterEntryOfScenario(rev, p0);
    var e1 := Enter(rev, p0, true).after;
    var p1 := e1.(handlers := e1.handlers[SIGUSR2 := user]);
    InnerScopeOfScenario(rev, p1);
    var e2 := Enter(rev, p1, true).after;
    var d1 := Deliver(rev, e2, SIGUSR2, false);
    var d2 := Deliver(rev, d1.after, SIGUSR2, false);
    OuterSignalsOfScenario(rev, Exit(rev, d2.after).after);
  }

  /** The outer scope of the scenario below, once the user handler is put
      on SIGUSR2. */
  lemma OuterEntryOfScenario(rev: Revision, p0: Process)
    requires p0.guard == Guard(0, [SIGUSR1, SIGUSR2], DefaultCallback, [], 0, [])
    requires Get(p0.handlers, SIGUSR1) == UserHandler(0) && Get(p0.handlers, SIGUSR2) == SigDfl
    requires !Requested(p0.flag)
    ensures var e1 := Enter(rev, p0, true).after;
      OuterScopeOfScenario(e1.(handlers := e1.handlers[SIGUSR2 := UserHandler(0)]))
  {
    EnterTwo(rev, p0, SIGUSR1, SIGUSR2);
  }

  /** As written, a guard listing SIGINT twice saves its own handler the
      second time, so after an uneventful `with` block SIGINT still goes to
      the guard; the next SIGINT requests shut down outside any scope and
      then fails on the empty stack. */
  lemma RepeatedSignalStaysGuarded(p: Process)
    requires p.guard == Guard(0, [SIGINT, SIGINT], DefaultCallback, [], 0, [])
    requires Get(p.handlers, SIGINT) == SigDfl && !Requested(p.flag)
    ensures var r := RunAction(AsWritten, p, Block([]));
      var d := Deliver(AsWritten, r.after, SIGINT, false);
      && r.raised == None && Get(r.after.handlers, SIGINT) == Guarded(0, SIGINT)
      && d.outcome == Failed(EmptyHandlerStack) && Requested(d.after.flag)
  {
    var top := map[SIGINT := Guarded(0, SIGINT)];
    RepeatedEnter(p, top);
    var e := Enter(AsWritten, p, true).after;
    BlockAfterEntry(AsWritten, p, []);
    assert RunBody(AsWritten, e, []) == Run(e, None);
    RepeatedExit(e, top);
    RepeatedDeliver(Exit(AsWritten, e).after);
  }

  lemma RepeatedEnter(p: Process, top: Snapshot)
    requires top == map[SIGINT := Guarded(0, SIGINT)]
    requires p.guard == Guard(0, [SIGINT, SIGINT], DefaultCallback, [], 0, [])
    requires !Requested(p.flag)
    ensures var e := Enter(AsWritten, p, true);
      && e.status.Done?
      && e.after.guard == Guard(0, [SIGINT, SIGINT], DefaultCallback, [top], 1, [false])
      && Get(e.after.handlers, SIGINT) == Guarded(0, SIGINT)
  {
    EnterFull(AsWritten, p);
    RepeatedInstall(p.handlers, top);
  }

  lemma RepeatedInstall(t: Table, top: Snapshot)
    requires top == map[SIGINT := Guarded(0, SIGINT)]
    ensures InstallAll(AsWritten, 0, t, map[], [SIGINT, SIGINT]).saved == top
  {
    var h1 := InstallHead(AsWritten, 0, t, map[], SIGINT);
    var h2 := InstallHead(AsWritten, 0, h1.table, h1.saved, SIGINT);
    assert [SIGINT, SIGINT][1..] == [SIGINT] && [SIGINT][1..] == [];
    assert InstallAll(AsWritten, 0, h1.table, h1.saved, [SIGINT]) == h2;
  }

  lemma RepeatedExit(x: Process, top: Snapshot)
    requires top == map[SIGINT := Guarded(0, SIGINT)]
    requires x.guard == Guard(0, [SIGINT, SIGINT], DefaultCallback, [top], 1, [false])
    requires Get(x.handlers, SIGINT) == Guarded(0, SIGINT)
    ensures var r := Exit(AsWritten, x);
      && r.status.Done? && Get(r.after.handlers, SIGINT) == Guarded(0, SIGINT)
      && r.after.guard == Guard(0, [SIGINT, SIGINT], DefaultCallback, [], 0, [false])
  {
    ReinstallComplete(x.handlers, top, x.guard.signals);
  }

  lemma RepeatedDeliver(q: Process)
    requires q.guard == Guard(0, [SIGINT, SIGINT], DefaultCallback, [], 0, [false])
    requires Get(q.handlers, SIGINT) == Guarded(0, SIGINT)
    ensures var d := Deliver(AsWritten, q, SIGINT, false);
      d.outcome == Failed(EmptyHandlerStack) && Requested(d.after.flag)
  {
  }

  /** As written, one recorded flag serves every scope: an outer scope
      whose body requests shut down and then opens and closes an inner
      scope exits with the flag set, although it was clear on entry. */
  lemma NestedExitKeepsInnerBaseline(p: Process)
    requires p.guard == Guard(0, [SIGUSR1], DefaultCallback, [], 0, [])
    requires !Requested(p.flag) && Get(p.handlers, SIGUSR1) != NotFromPython
    ensures var r := RunAction(AsWritten, p, Block([Call(RequestOp), Block([])]));
      r.raised == None && Requested(r.after.flag)
  {
    var body := [Call(RequestOp), Block([])];
    var e := Enter(AsWritten, p, true);
    EnterOne(AsWritten, p);
    BlockAfterEntry(AsWritten, p, body);
    RequestThenInnerScope(e.after, Get(p.handlers, SIGUSR1));
    var b := RunBody(AsWritten, e.after, body);
    assert RunAction(AsWritten, p, Block(body)) == Run(Exit(AsWritten, b.after).after, b.raised);
  }

  /** The body of the outer scope above: request, then an empty inner
      scope, then the outer exit. */
  lemma RequestThenInnerScope(e: Process, saved: Handler)
    requires e.guard.signals == [SIGUSR1] && e.guard.id == 0
    requires |e.guard.stack| == 1 && e.guard.depth == 1
    requires Last(e.guard.stack) == map[SIGUSR1 := saved] && saved != NotFromPython
    requires Get(e.handlers, SIGUSR1) == Guarded(0, SIGUSR1)
    ensures var b := RunBody(AsWritten, e, [Call(RequestOp), Block([])]);
      var x := Exit(AsWritten, b.after);
      && b.raised == None && x.status.Done? && Requested(x.after.flag)
  {
    var q := e.(flag := Request(e.flag));
    InnerBlockRequested(q);
    var inner := RunAction(AsWritten, q, Block([]));
    assert RunBody(AsWritten, e, [Call(RequestOp), Block([])]) == inner;
    OuterExitRequested(inner.after);
  }

  lemma InnerBlockRequested(q: Process)
    requires q.guard.signals == [SIGUSR1] && q.guard.id == 0
    requires |q.guard.stack| == 1 && q.guard.depth == 1 && Requested(q.flag)
    requires Get(q.handlers, SIGUSR1) == Guarded(0, SIGUSR1)
    ensures var inner := RunAction(AsWritten, q, Block([]));
      && inner.raised == None && Requested(inner.after.flag)
      && inner.after.guard == q.guard.(baselines := [true])
  {
    EnterOne(AsWritten, q);
    var ie := Enter(AsWritten, q, true);
    BlockAfterEntry(AsWritten, q, []);
    assert RunBody(AsWritten, ie.after, []) == Run(ie.after, None);
    ReinstallComplete(ie.after.handlers, Last(ie.after.guard.stack), [SIGUSR1]);
  }

  lemma OuterExitRequested(x: Process)
    requires x.guard.signals == [SIGUSR1] && x.guard.baselines == [true]
    requires |x.guard.stack| == 1 && x.guard.depth == 1
    requires forall s :: s in Last(x.guard.stack) ==> s == SIGUSR1 && Last(x.guard.stack)[s] != NotFromPython
    ensures Exit(AsWritten, x).status.Done? && Requested(Exit(AsWritten, x).after.flag)
  {
    ReinstallComplete(x.handlers, Last(x.guard.stack), [SIGUSR1]);
  }

  /** As written, once a signal was caught in an outer scope, a nested
      scope's signal restores nothing: the guard handler stays installed and
      the second signal reaches the guard again instead of the handler that
      was there before. */
  lemma EarlierSignalDisarmsNestedScope(p: Process)
    requires p.guard == Guard(0, [SIGUSR1], DefaultCallback, [], 0, [])
    requires Get(p.handlers, SIGUSR1) == UserHandler(0) && !Requested(p.flag)
    ensures
      var e1 := Enter(AsWritten, p, true).after;
      var d1 := Deliver(AsWritten, e1, SIGUSR1, false).after;
      var e2 := Enter(AsWritten, d1, true).after;
      var d2 := Deliver(AsWritten, e2, SIGUSR1, false);
      var d3 := Deliver(AsWritten, d2.after, SIGUSR1, false);
      && d2.outcome == CallbackCalled(SIGUSR1, false)
      && Get(d2.after.handlers, SIGUSR1) == Guarded(0, SIGUSR1)
      && d3.outcome == CallbackCalled(SIGUSR1, false)
  {
    var top := map[SIGUSR1 := UserHandler(0)];
    EnterOne(AsWritten, p);
    var e1 := Enter(AsWritten, p, true).after;
    FirstSignalPops(e1, top);
    var d1 := Deliver(AsWritten, e1, SIGUSR1, false).after;
    EnterOne(AsWritten, d1);
    var e2 := Enter(AsWritten, d1, true).after;
    SkippedClearKeepsGuard(e2);
    SkippedClearKeepsGuard(Deliver(AsWritten, e2, SIGUSR1, false).after);
  }

  /** Entering a guard for SIGUSR1 alone. */
  lemma EnterOne(rev: Revision, q: Process)
    requires q.guard.signals == [SIGUSR1]
    ensures var e := Enter(rev, q, true);
      && e.status.Done? && e.after.flag == q.flag
      && e.after.guard == q.guard.(stack := q.guard.stack + [map[SIGUSR1 := Get(q.handlers, SIGUSR1)]],
                                   depth := q.guard.depth + 1,
                                   baselines := if rev == AsWritten then [Requested(q.flag)]
                                                else q.guard.baselines + [Requested(q.flag)])
      && Get(e.after.handlers, SIGUSR1) == Guarded(q.guard.id, SIGUSR1)
  {
    EnterFull(rev, q);
    var inst := InstallAll(rev, q.guard.id, q.handlers, map[], [SIGUSR1]);
    assert inst.saved == map[SIGUSR1 := Get(q.handlers, SIGUSR1)];
  }

  /** Installing over two different signals. */
  lemma InstallTwo(rev: Revision, owner: nat, t: Table, a: Sig, b: Sig)
    requires a != b && Catchable(a) && Catchable(b)
    ensures InstallAll(rev, owner, t, map[], [a, b])
              == Installed(t[a := Guarded(owner, a)][b := Guarded(owner, b)], map[a := Get(t, a), b := Get(t, b)])
  {
    var h1 := InstallHead(rev, owner, t, map[], a);
    var h2 := InstallHead(rev, owner, h1.table, h1.saved, b);
    assert [a, b][1..] == [b] && [b][1..] == [];
    assert InstallAll(rev, owner, h1.table, h1.saved, [b]) == h2;
  }

  /** Entering a guard for two different signals. */
  lemma EnterTwo(rev: Revision, q: Process, a: Sig, b: Sig)
    requires q.guard.signals == [a, b] && a != b && Catchable(a) && Catchable(b)
    ensures var e := Enter(rev, q, true);
      && e.status.Done? && e.after.flag == q.flag
      && e.after.guard == q.guard.(stack := q.guard.stack + [map[a := Get(q.handlers, a), b := Get(q.handlers, b)]],
                                   depth := q.guard.depth + 1,
                                   baselines := if rev == AsWritten then [Requested(q.flag)]
                                                else q.guard.baselines + [Requested(q.flag)])
      && e.after.handlers == q.handlers[a := Guarded(q.guard.id, a)][b := Guarded(q.guard.id, b)]
  {
    EnterFull(rev, q);
    InstallTwo(rev, q.guard.id, q.handlers, a, b);
  }

  /** Reinstalling two different signals, neither holding `None`. */
  lemma ReinstallTwo(t: Table, a: Sig, b: Sig, ha: Handler, hb: Handler)
    requires a != b && ha != NotFromPython && hb != NotFromPython
    ensures ReinstallInOrder(t, map[a := ha, b := hb], [a, b]) == Reinstalled(t[a := ha][b := hb], map[], 2, false)
  {
    var saved := map[a := ha, b := hb];
    assert saved - {a} == map[b := hb];
    assert map[b := hb] - {b} == map[];
    assert [a, b][1..] == [b] && [b][1..] == [];
    assert ReinstallInOrder(t[a := ha], map[b := hb], [b]) == Reinstalled(t[a := ha][b := hb], map[], 1, false);
  }

  lemma FirstSignalPops(q: Process, top: Snapshot)
    requires top == map[SIGUSR1 := UserHandler(0)]
    requires q.guard == Guard(0, [SIGUSR1], DefaultCallback, [top], 1, [false])
    requires Get(q.handlers, SIGUSR1) == Guarded(0, SIGUSR1)
    ensures var d := Deliver(AsWritten, q, SIGUSR1, false).after;
      && d.guard == q.guard.(stack := []) && Requested(d.flag)
      && Get(d.handlers, SIGUSR1) == UserHandler(0)
  {
    ReinstallComplete(q.handlers, top, q.guard.signals);
  }

  /** As written, with fewer snapshots than open scopes the guard handler
      only sets the flag: it stays installed and the callback runs. */
  lemma SkippedClearKeepsGuard(q: Process)
    requires q.guard.signals == [SIGUSR1] && q.guard.id == 0 && |q.guard.stack| < q.guard.depth
    requires Get(q.handlers, SIGUSR1) == Guarded(0, SIGUSR1)
    ensures var d := Deliver(AsWritten, q, SIGUSR1, false);
      && d.outcome == CallbackCalled(SIGUSR1, false)
      && d.after == q.(flag := Request(q.flag))
  {
  }
}
