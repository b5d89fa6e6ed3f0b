/** The older `shutdown` package: the same flag, a `catch_signals` context
    manager that saves replaced handlers in one module-wide map, and
    `Shutter`, the predecessor of `Timer`.

    The saved map is shared by every scope and filled first-writer-wins, so
    the guard is not nestable: any exit, and any caught signal, reinstalls
    everything saved and empties the map. */
module Shutdown {
  import opened Results
  import opened Floats
  import opened Requests
  import opened Signals
  import SignalGuard
  import Timers

  /** The owner recorded in every handler this module installs: all of
      them act on the one module-wide saved map. */
  const ModuleOwner: nat := 0

  /** The signal table, the flag and the module-wide saved map, with the
      order its entries were made in (a dict iterates in insertion
      order). */
  datatype OldProcess = OldProcess(handlers: Table, flag: Flag, saved: map<Sig, Handler>, order: seq<Sig>)

  /** The installing loop over signals the system lets it catch: the guard
      handler goes onto every listed signal, and what it replaced is saved,
      as a new last entry, unless something is saved for that signal
      already. */
  function Protect(p: OldProcess, sigs: seq<Sig>): (r: OldProcess)
    requires forall x :: x in sigs ==> Catchable(x)
    ensures r.flag == p.flag
    ensures forall x :: x in sigs ==> Get(r.handlers, x) == Guarded(ModuleOwner, x)
    ensures forall x :: x !in sigs ==> Get(r.handlers, x) == Get(p.handlers, x)
    ensures forall x :: x in r.saved <==> x in p.saved || x in sigs
    ensures forall x :: x in r.saved ==> r.saved[x] == if x in p.saved then p.saved[x] else Get(p.handlers, x)
    ensures forall x :: x in r.order <==> x in p.order || (x in sigs && x !in p.saved)
    ensures r.order == p.order + FirstOccurrences(p.saved.Keys, sigs)
    decreases |sigs|, 1
  {
    if sigs == [] then p
    else
      var r := Protect(ProtectHead(p, sigs[0]), sigs[1..]);
      ProtectStepOrder(p, sigs, r.order);
      r
  }

  /** What the recursive call of `Protect` works from: the first signal
      guarded, and saved unless it was saved already. */
  function ProtectHead(p: OldProcess, s: Sig): OldProcess
  {
    var next := if s in p.saved then p else p.(saved := p.saved[s := Get(p.handlers, s)], order := p.order + [s]);
    next.(handlers := p.handlers[s := Guarded(ModuleOwner, s)])
  }

  /** The induction step of `Protect` for the saving order: what the
      recursive call appends after the first signal is what the whole
      list contributes. */
  lemma ProtectStepOrder(p: OldProcess, sigs: seq<Sig>, order: seq<Sig>)
    requires sigs != []
    requires var h := ProtectHead(p, sigs[0]);
      order == h.order + FirstOccurrences(h.saved.Keys, sigs[1..])
    ensures order == p.order + FirstOccurrences(p.saved.Keys, sigs)
  {
    var s := sigs[0];
    ProtectHeadSaves(p, s);
    FirstOccurrencesHead(p.saved.Keys, sigs);
    if s !in p.saved {
      AppendAfterLast(p.order, s, FirstOccurrences(p.saved.Keys + {s}, sigs[1..]));
    }
  }

  lemma AppendAfterLast(a: seq<Sig>, s: Sig, c: seq<Sig>)
    ensures (a + [s]) + c == a + ([s] + c)
  {
  }

  /** The first step of `Protect` saves its signal, as a new last entry,
      unless it was saved already. */
  lemma ProtectHeadSaves(p: OldProcess, s: Sig)
    ensures ProtectHead(p, s).saved.Keys == p.saved.Keys + {s}
    ensures ProtectHead(p, s).order == if s in p.saved then p.order else p.order + [s]
  {
    if s in p.saved {
      assert p.saved.Keys + {s} == p.saved.Keys;
    }
  }

  lemma FirstOccurrencesHead(seen: set<Sig>, sigs: seq<Sig>)
    requires sigs != []
    ensures sigs[0] in seen ==> FirstOccurrences(seen, sigs) == FirstOccurrences(seen + {sigs[0]}, sigs[1..])
    ensures sigs[0] !in seen ==> FirstOccurrences(seen, sigs) == [sigs[0]] + FirstOccurrences(seen + {sigs[0]}, sigs[1..])
  {
  }

  /** The signals of `sigs` not in `seen`, each at its first occurrence,
      in list order: the entries an installing loop that keeps the first
      saved handler appends to a dict whose keys are `seen`. */
  function FirstOccurrences(seen: set<Sig>, sigs: seq<Sig>): (r: seq<Sig>)
    ensures forall x :: x in r <==> x in sigs && x !in seen
    decreases |sigs|
  {
    if sigs == [] then []
    else (if sigs[0] in seen then [] else [sigs[0]]) + FirstOccurrences(seen + {sigs[0]}, sigs[1..])
  }

  /** The old installing loop is the corrected installing loop of
      `wrapitup`: keeping the first saved handler is what the later code
      lost. */
  lemma {:induction false} ProtectIsCorrectedInstall(p: OldProcess, sigs: seq<Sig>)
    requires forall x :: x in sigs ==> Catchable(x)
    ensures var inst := SignalGuard.InstallAll(Corrected, ModuleOwner, p.handlers, p.saved, sigs);
      var q := Protect(p, sigs);
      q.handlers == inst.table && q.saved == inst.saved && q.flag == p.flag
    decreases |sigs|
  {
    if sigs != [] {
      ProtectIsCorrectedInstall(ProtectHead(p, sigs[0]), sigs[1..]);
    }
  }

  /** Entering `catch_signals(signals)`: an empty list is refused before
      anything else; off the main thread the first installation raises and
      nothing changes; a signal the system does not let a process catch
      raises OSError with the signals before it protected; otherwise every
      signal is protected. The flag recorded on entry is the one the
      returned state holds. */
  function Enter(p: OldProcess, signals: seq<Sig>, onMainThread: bool): (r: Step<OldProcess>)
    ensures r.after.flag == p.flag
    ensures r.status.Raised? <==>
              |signals| == 0 || !onMainThread || CatchablePrefix(signals) < |signals|
    ensures |signals| == 0 || !onMainThread ==>
              && r.after == p
              && r.status.error == (if |signals| == 0 then NoSignalsSelected else NotMainThread)
              && ClassOf(r.status.error) == ValueError
    ensures |signals| > 0 && onMainThread && CatchablePrefix(signals) < |signals| ==>
              && r.status == Raised(UncatchableSignal)
              && r.after == Protect(p, signals[..CatchablePrefix(signals)])
    ensures r.status.Done? ==> r.after == Protect(p, signals)
  {
    var k := CatchablePrefix(signals);
    if |signals| == 0 then Step(p, Raised(NoSignalsSelected))
    else if !onMainThread then Step(p, Raised(NotMainThread))
    else if k < |signals| then Step(Protect(p, signals[..k]), Raised(UncatchableSignal))
    else Step(Protect(p, signals), Done)
  }

  /** `_clear_signal_handlers`: reinstall the saved handlers in the order
      they were saved, forgetting each. A `None` among them raises
      TypeError and leaves it and the later ones saved. */
  function Clear(p: OldProcess): (r: Step<OldProcess>)
    ensures r.after.flag == p.flag
    ensures r.status.Raised? <==> exists s :: s in p.order && s in p.saved && p.saved[s] == NotFromPython
    ensures r.status.Raised? ==> r.status.error == HandlerNotInstallable
    ensures forall s :: s in r.after.saved ==>
              s in p.saved && r.after.saved[s] == p.saved[s] && Get(r.after.handlers, s) == Get(p.handlers, s)
    ensures forall s :: s in p.saved && s !in r.after.saved ==> Get(r.after.handlers, s) == p.saved[s]
    ensures forall s :: s !in p.saved ==> Get(r.after.handlers, s) == Get(p.handlers, s)
    ensures (forall s :: s in p.saved ==> s in p.order) ==> forall s :: s in r.after.saved ==> s in r.after.order
    ensures r.status.Done? && (forall s :: s in p.saved ==> s in p.order) ==>
              r.after.saved == map[] && r.after.order == []
    ensures var k := FirstNone(p.order, p.saved);
      && (r.status.Raised? <==> k < |p.order|)
      && r.after.order == p.order[k..]
      && forall s :: s in r.after.saved <==> s in p.saved && s !in p.order[..k]
  {
    ClearedReinstalls(p);
    ClearedStops(p);
    Cleared(p)
  }

  /** The restoring loop of `Clear`, walking the saving order, with what
      is left of that order where the walk stopped. */
  function Cleared(p: OldProcess): Step<OldProcess>
  {
    var re := ReinstallInOrder(p.handlers, p.saved, p.order);
    Step(OldProcess(re.table, p.flag, re.left, p.order[re.reached..]),
         if re.failed then Raised(HandlerNotInstallable) else Done)
  }

  /** What the walk of `Clear` reinstalls and what it leaves saved. */
  lemma ClearedReinstalls(p: OldProcess)
    ensures var r := Cleared(p);
      && r.after.flag == p.flag
      && (r.status.Raised? ==> r.status.error == HandlerNotInstallable)
      && (forall s :: s in r.after.saved ==>
            s in p.saved && r.after.saved[s] == p.saved[s] && Get(r.after.handlers, s) == Get(p.handlers, s))
      && (forall s :: s in p.saved && s !in r.after.saved ==> Get(r.after.handlers, s) == p.saved[s])
      && (forall s :: s !in p.saved ==> Get(r.after.handlers, s) == Get(p.handlers, s))
  {
  }

  /** Where the walk of `Clear` stops, and what is left of the saving
      order. */
  lemma ClearedStops(p: OldProcess)
    ensures var r := Cleared(p);
      && (r.status.Raised? <==> exists s :: s in p.order && s in p.saved && p.saved[s] == NotFromPython)
      && ((forall s :: s in p.saved ==> s in p.order) ==> forall s :: s in r.after.saved ==> s in r.after.order)
      && (r.status.Done? && (forall s :: s in p.saved ==> s in p.order) ==>
            r.after.saved == map[] && r.after.order == [])
      && var k := FirstNone(p.order, p.saved);
      && (r.status.Raised? <==> k < |p.order|)
      && r.after.order == p.order[k..]
      && forall s :: s in r.after.saved <==> s in p.saved && s !in p.order[..k]
  {
    var re := ReinstallInOrder(p.handlers, p.saved, p.order);
    ReinstallComplete(p.handlers, p.saved, p.order);
    ReinstallStopsAtFirstNone(p.handlers, p.saved, p.order);
    var rest := p.order[re.reached..];
    assert forall s :: s in p.order ==> s in p.order[..re.reached] || s in rest by {
      assert p.order == p.order[..re.reached] + rest;
    }
  }

  /** A second clear after a complete one has nothing left to reinstall. */
  lemma ClearIdempotent(p: OldProcess)
    requires Clear(p).status.Done?
    requires forall s :: s in p.saved ==> s in p.order
    ensures Clear(Clear(p).after) == Clear(p)
  {
    var q := Clear(p).after;
    ReinstallNothing(q.handlers, q.saved, q.order);
  }

  /** The `finally` clause: clear, then put the flag back as recorded. A
      clear that raises leaves the flag as it is. */
  function Exit(p: OldProcess, baseline: bool): (r: Step<OldProcess>)
    ensures r.status == Clear(p).status
    ensures r.after.handlers == Clear(p).after.handlers && r.after.saved == Clear(p).after.saved
    ensures r.status.Done? ==> Requested(r.after.flag) == baseline
    ensures r.status.Raised? ==> r.after.flag == p.flag
  {
    var c := Clear(p);
    if c.status.Raised? then c
    else Step(c.after.(flag := if baseline then Request(c.after.flag) else Reset(c.after.flag)), Done)
  }

  /** What became of a delivered signal. */
  datatype OldOutcome = PassedOn(handler: Handler) | Caught | Failed(error: Error)

  datatype OldDelivery = OldDelivery(after: OldProcess, outcome: OldOutcome)

  /** A handler this module installed. */
  predicate Own(h: Handler)
  {
    h.Guarded? && h.owner == ModuleOwner
  }

  /** A signal arrives. The guard handler for it requests shut down and
      then clears, which may raise; a guard handler reached by another
      signal fails its assertion; any other handler is outside the
      model. */
  function Deliver(p: OldProcess, sig: Sig): (r: OldDelivery)
    ensures !Own(Get(p.handlers, sig)) ==> r == OldDelivery(p, PassedOn(Get(p.handlers, sig)))
    ensures Own(Get(p.handlers, sig)) && Get(p.handlers, sig).intended != sig ==>
              r == OldDelivery(p, Failed(UnexpectedSignal))
    ensures Get(p.handlers, sig) == Guarded(ModuleOwner, sig) ==>
              var c := Clear(p.(flag := Request(p.flag)));
              && Requested(r.after.flag) && r.after == c.after
              && (r.outcome == Caught <==> c.status.Done?)
              && (c.status.Raised? ==> r.outcome == Failed(HandlerNotInstallable))
  {
    var h := Get(p.handlers, sig);
    if !Own(h) then OldDelivery(p, PassedOn(h))
    else if h.intended != sig then OldDelivery(p, Failed(UnexpectedSignal))
    else
      var c := Clear(p.(flag := Request(p.flag)));
      OldDelivery(c.after, if c.status.Raised? then Failed(c.status.error) else Caught)
  }

  /** What a `with` block's body does: receive a signal, or call
      `request()` or `reset()`. */
  datatype OldAction = Hit(sig: Sig) | Flip(op: FlagOp)

  datatype OldRun = OldRun(after: OldProcess, raised: Option<Error>)

  /** Run a body until it ends or raises: only a failed assertion or a
      handler that cannot be put back can make it raise. */
  function RunBody(p: OldProcess, body: seq<OldAction>): (r: OldRun)
    ensures r.raised.Some? ==> r.raised.value == UnexpectedSignal || r.raised.value == HandlerNotInstallable
    decreases |body|
  {
    if body == [] then OldRun(p, None)
    else match body[0]
      case Flip(op) => RunBody(p.(flag := Apply(p.flag, op)), body[1..])
      case Hit(sig) =>
        var d := Deliver(p, sig);
        if d.outcome.Failed? then OldRun(d.after, Some(d.outcome.error))
        else RunBody(d.after, body[1..])
  }

  /** Nothing is saved, every listed signal can be caught, and none holds a
      handler that cannot be put back. */
  predicate Restorable(p: OldProcess, signals: seq<Sig>)
  {
    && p.saved == map[] && p.order == []
    && forall s :: s in signals ==> Catchable(s) && Get(p.handlers, s) != NotFromPython
  }

  /** Inside a scope entered from `p`: either the guard handlers and the
      saved map are still those of the entry, or a signal was caught and
      the handlers from before the scope are back. */
  ghost predicate InScope(p: OldProcess, signals: seq<Sig>, q: OldProcess)
  {
    && Restorable(p, signals)
    && var e := Protect(p, signals);
    || (q.saved == e.saved && q.order == e.order && Agree(q.handlers, e.handlers))
    || (q.saved == map[] && q.order == [] && Agree(q.handlers, p.handlers))
  }

  lemma ClearInScope(p: OldProcess, signals: seq<Sig>, q: OldProcess)
    requires InScope(p, signals, q)
    ensures var c := Clear(q);
      c.status.Done? && c.after.saved == map[] && c.after.order == [] && Agree(c.after.handlers, p.handlers)
  {
    var e := Protect(p, signals);
    if q.saved == e.saved && q.order == e.order && Agree(q.handlers, e.handlers) {
      ClearOfProtected(p, signals, q);
    } else {
      ClearOfCleared(p, q);
    }
  }

  /** The clear of the scope's own saved map reinstalls every handler from
      before the scope and empties the map. */
  lemma ClearOfProtected(p: OldProcess, signals: seq<Sig>, q: OldProcess)
    requires Restorable(p, signals)
    requires var e := Protect(p, signals);
      q.saved == e.saved && q.order == e.order && Agree(q.handlers, e.handlers)
    ensures var c := Clear(q);
      c.status.Done? && c.after.saved == map[] && c.after.order == [] && Agree(c.after.handlers, p.handlers)
  {
    var c := Clear(q);
    forall s ensures Get(c.after.handlers, s) == Get(p.handlers, s) {
    }
  }

  /** A clear with nothing saved changes nothing. */
  lemma ClearOfCleared(p: OldProcess, q: OldProcess)
    requires q.saved == map[] && q.order == [] && Agree(q.handlers, p.handlers)
    ensures var c := Clear(q);
      c.status.Done? && c.after.saved == map[] && c.after.order == [] && Agree(c.after.handlers, p.handlers)
  {
  }

  lemma {:induction false} BodyStaysInScope(p: OldProcess, signals: seq<Sig>, q: OldProcess, body: seq<OldAction>)
    requires InScope(p, signals, q)
    ensures InScope(p, signals, RunBody(q, body).after)
    ensures RunBody(q, body).raised.Some? ==> RunBody(q, body).raised.value == UnexpectedSignal
    decreases |body|
  {
    if body != [] {
      match body[0]
      case Flip(op) =>
        BodyStaysInScope(p, signals, q.(flag := Apply(q.flag, op)), body[1..]);
      case Hit(sig) =>
        var d := Deliver(q, sig);
        if Get(q.handlers, sig) == Guarded(ModuleOwner, sig) {
          ClearInScope(p, signals, q.(flag := Request(q.flag)));
        }
        if !d.outcome.Failed? {
          BodyStaysInScope(p, signals, d.after, body[1..]);
        }
    }
  }

  /** A `with catch_signals(...)` block entered with nothing saved and
      with every signal catchable and restorable leaves the signal table,
      the flag and the saved map as it found them, whatever signals arrive
      in it and whatever it does to the flag. */
  lemma ScopeRoundTrip(p: OldProcess, signals: seq<Sig>, body: seq<OldAction>)
    requires Restorable(p, signals) && |signals| > 0
    ensures Enter(p, signals, true).status.Done?
    ensures var e := Enter(p, signals, true).after;
      var x := Exit(RunBody(e, body).after, Requested(e.flag));
      && x.status.Done?
      && Agree(x.after.handlers, p.handlers) && x.after.flag == p.flag
      && x.after.saved == map[] && x.after.order == []
  {
    var e := Enter(p, signals, true).after;
    assert InScope(p, signals, e);
    BodyStaysInScope(p, signals, e, body);
    ClearInScope(p, signals, RunBody(e, body).after);
  }

  /** Nesting is not supported: when an inner scope for SIGTERM exits
      inside an outer scope for SIGINT, SIGINT is unprotected again. */
  lemma InnerExitUnprotectsOuter()
    ensures
      var p := OldProcess(map[], Initial, map[], []);
      var outer := Enter(p, [SIGINT], true).after;
      var inner := Enter(outer, [SIGTERM], true).after;
      var x := Exit(inner, Requested(inner.flag));
      && Get(outer.handlers, SIGINT) == Guarded(ModuleOwner, SIGINT)
      && Get(inner.handlers, SIGINT) == Guarded(ModuleOwner, SIGINT)
      && x.status.Done? && Get(x.after.handlers, SIGINT) == SigDfl
  {
    var p := OldProcess(map[], Initial, map[], []);
    EnterOneSignal(p, SIGINT);
    var outer := Enter(p, [SIGINT], true).after;
    EnterOneSignal(outer, SIGTERM);
    var inner := Enter(outer, [SIGTERM], true).after;
    assert inner.saved == map[SIGINT := SigDfl, SIGTERM := SigDfl];
    InnerExitClearsBoth(inner);
  }

  /** Entering a scope for one catchable signal not saved yet guards it and
      saves its handler as the last entry. */
  lemma EnterOneSignal(p: OldProcess, s: Sig)
    requires Catchable(s) && s !in p.saved
    ensures var e := Enter(p, [s], true);
      && e.status.Done? && e.after.flag == p.flag
      && e.after.saved == p.saved[s := Get(p.handlers, s)] && e.after.order == p.order + [s]
      && e.after.handlers == p.handlers[s := Guarded(ModuleOwner, s)]
  {
    assert CatchablePrefix([s]) == 1;
    assert Protect(p, [s]) == Protect(ProtectHead(p, s), []);
  }

  lemma InnerExitClearsBoth(q: OldProcess)
    requires q.saved == map[SIGINT := SigDfl, SIGTERM := SigDfl] && q.order == [SIGINT, SIGTERM]
    ensures var x := Exit(q, Requested(q.flag));
      x.status.Done? && Get(x.after.handlers, SIGINT) == SigDfl
  {
  }

  /** A signal that cannot be caught stops entry half way, with the
      signals before it protected and saved; the `finally` clause never
      runs. */
  lemma UncatchableSignalHalfProtects()
    ensures
      var p := OldProcess(map[], Initial, map[], []);
      var e := Enter(p, [SIGINT, SIGKILL], true);
      && e.status == Raised(UncatchableSignal)
      && Get(e.after.handlers, SIGINT) == Guarded(ModuleOwner, SIGINT)
      && e.after.saved == map[SIGINT := SigDfl] && e.after.order == [SIGINT]
  {
    assert CatchablePrefix([SIGINT, SIGKILL]) == 1;
    assert [SIGINT, SIGKILL][..1] == [SIGINT];
  }

  /** A handler not installed from Python cannot be put back: the
      `finally` clause of a block entered over one raises TypeError and
      leaves the flag as the body left it. */
  lemma UnrestorableHandlerBlocksFinally(p: OldProcess)
    requires p.saved == map[] && p.order == [] && Get(p.handlers, SIGINT) == NotFromPython
    ensures
      var e := Enter(p, [SIGINT], true).after;
      var b := RunBody(e, [Flip(RequestOp)]).after;
      var x := Exit(b, Requested(e.flag));
      && x.status == Raised(HandlerNotInstallable)
      && Get(x.after.handlers, SIGINT) == Guarded(ModuleOwner, SIGINT)
      && Requested(x.after.flag)
  {
    var e := Enter(p, [SIGINT], true).after;
    assert e.order == [SIGINT] && e.saved == map[SIGINT := NotFromPython];
  }

  // ---------------------------------------------------------------------
  // Shutter

  /** A `Shutter`, with the same fields as a `Timer`. */
  datatype Shutter = Shutter(startTime: real, timeout: Float, runningTime: Option<real>, latched: bool)

  predicate Running(s: Shutter)
  {
    s.runningTime.None?
  }

  /** `start_timer(timeout)`: the clock is stored first; anything but
      `None` or a number is refused, `None` means no timeout, and NaN is
      taken as it is. */
  function StartTimer(s: Shutter, arg: Timers.LimitArg, now: real): (r: Step<Shutter>)
    ensures r.after.startTime == now
    ensures r.status.Raised? <==> arg.NonNumeric?
    ensures r.status.Raised? ==> r.status.error == LimitNotNumeric && ClassOf(r.status.error) == TypeError
                                 && r.after == s.(startTime := now)
    ensures r.status.Done? ==> Running(r.after) && !r.after.latched
                               && r.after.timeout == (if arg.NoneArg? then PosInf else arg.number)
  {
    match arg
    case NonNumeric => Step(s.(startTime := now), Raised(LimitNotNumeric))
    case NoneArg => Step(Shutter(now, PosInf, None, false), Done)
    case Numeric(x) => Step(Shutter(now, x, None, false), Done)
  }

  /** `Shutter(timeout)`. */
  function NewShutter(arg: Timers.LimitArg, now: real): (r: Result<Shutter>)
    ensures r.Err? <==> arg.NonNumeric?
    ensures r.Err? ==> r.error == LimitNotNumeric && ClassOf(r.error) == TypeError
    ensures r.Ok? ==> Running(r.value) && !r.value.latched && r.value.startTime == now
                      && r.value.timeout == (if arg.NoneArg? then PosInf else arg.number)
  {
    var st := StartTimer(Shutter(now, PosInf, None, false), arg, now);
    if st.status.Raised? then Err(st.status.error) else Ok(st.after)
  }

  /** `stop_timer()`: reads the flag and throws the answer away, then
      freezes the elapsed time on the first call. */
  function StopTimer(s: Shutter, requested: bool, now: real): (r: Answer<Shutter, real>)
    ensures !Running(r.after) && r.after.runningTime == Some(r.value)
    ensures Running(s) ==> r.value == now - s.startTime
    ensures !Running(s) ==> r.after == s
    ensures r.after.latched == s.latched
  {
    var _ := requested;
    match s.runningTime
    case Some(rt) => Answer(rt, s)
    case None => Answer(now - s.startTime, s.(runningTime := Some(now - s.startTime)))
  }

  /** `time_left()`. */
  function TimeLeft(s: Shutter, requested: bool, now: real): (r: Answer<Shutter, Float>)
    ensures !Running(s) || requested ==> r.value == Zero
    ensures Running(s) && requested ==> r.after.latched
    ensures r.after.runningTime == s.runningTime && r.after.timeout == s.timeout
  {
    if !Running(s) then Answer(Zero, s)
    else if requested then Answer(Zero, s.(latched := true))
    else Answer(Minus(s.timeout, now - s.startTime), s)
  }

  /** `timedout()`. */
  function TimedOut(s: Shutter, requested: bool, now: real): (r: Answer<Shutter, bool>)
    ensures Running(s) ==> r == Answer(AtMostZero(TimeLeft(s, requested, now).value), TimeLeft(s, requested, now).after)
    ensures !Running(s) ==> r.after == s
  {
    if Running(s) then
      var left := TimeLeft(s, requested, now);
      Answer(AtMostZero(left.value), left.after)
    else Answer(s.latched || Exceeds(s.runningTime.value, s.timeout), s)
  }

  // ---------------------------------------------------------------------
  // Shutter against Timer

  function AsTimer(s: Shutter): Timers.Timer
  {
    Timers.Timer(s.startTime, s.timeout, s.runningTime, s.latched)
  }

  /** Once started, a shutter answers every query exactly as a timer with
      the same fields does, and stopping it ignores the flag. */
  lemma QueriesMatchTimer(s: Shutter, requested: bool, now: real)
    ensures var st := StopTimer(s, requested, now);
      var tt := Timers.Stop(AsWritten, AsTimer(s), requested, now);
      st.value == tt.value && AsTimer(st.after) == tt.after
    ensures StopTimer(s, requested, now) == StopTimer(s, !requested, now)
    ensures var sl := TimeLeft(s, requested, now);
      var tr := Timers.Remaining(AsTimer(s), requested, now);
      sl.value == tr.value && AsTimer(sl.after) == tr.after
    ensures var so := TimedOut(s, requested, now);
      var te := Timers.Expired(AsTimer(s), requested, now);
      so.value == te.value && AsTimer(so.after) == te.after
  {
  }

  /** The two constructors agree on every number but NaN; `None` gives a
      shutter without timeout but no timer, and NaN a shutter but no
      timer. */
  lemma ConstructionAgainstTimer(arg: Timers.LimitArg, now: real)
    ensures arg.Numeric? && !arg.number.NaN? ==>
              NewShutter(arg, now).Ok? && Timers.New(arg, now).Ok?
              && AsTimer(NewShutter(arg, now).value) == Timers.New(arg, now).value
    ensures arg.NoneArg? ==> NewShutter(arg, now).Ok? && NewShutter(arg, now).value.timeout == PosInf
                             && Timers.New(arg, now) == Err(LimitNotNumeric)
    ensures arg == Timers.Numeric(NaN) ==> NewShutter(arg, now).Ok? && Timers.New(arg, now) == Err(LimitIsNaN)
    ensures arg.NonNumeric? ==> NewShutter(arg, now) == Err(LimitNotNumeric) && Timers.New(arg, now) == Err(LimitNotNumeric)
  {
  }

  /** A shutter with a NaN timeout never runs out: only a request seen
      while running makes it time out, before or after stopping. */
  lemma NaNTimeoutNeverRunsOut(now0: real, stopAt: real, now: real)
    ensures var s := NewShutter(Timers.Numeric(NaN), now0).value;
      && !TimedOut(s, false, now).value
      && TimedOut(s, true, now).value
      && !TimedOut(StopTimer(s, true, stopAt).after, true, now).value
  {
  }
}
