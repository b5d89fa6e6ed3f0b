/** The countdown timer of `wrapitup` (`Timer`).

    The clock and the shutdown flag are parameters: every operation that
    reads `monotonic()` takes `now`, and every one that reads `requested()`
    takes its answer. A timer is running until its first `stop`, which
    freezes the elapsed time; `remaining` and `expired` answer from the clock
    and the flag while running and from the frozen fields afterwards. */
module Timers {
  import opened Results
  import opened Floats
  import opened Requests

  /** What a caller may pass as the limit: a Python `int` or `float`
      (`bool` included), `None`, or anything else. */
  datatype LimitArg = NoneArg | Numeric(number: Float) | NonNumeric

  /** `startTime` is the clock reading of the last `start`; `runningTime`
      is the frozen elapsed time once stopped; `latched` records that a
      shut down request was seen while running. */
  datatype Timer = Timer(startTime: real, limit: Float, runningTime: Option<real>, latched: bool)

  predicate Running(t: Timer)
  {
    t.runningTime.None?
  }

  /** Why a limit is refused, if it is. `None` is not an `int` or a
      `float`, so it is refused as not numeric. */
  function LimitError(arg: LimitArg): (e: Option<Error>)
    ensures e.None? <==> arg.Numeric? && !arg.number.NaN?
    ensures e.Some? ==> ClassOf(e.value) == (if arg.Numeric? then ValueError else TypeError)
  {
    match arg
    case Numeric(NaN) => Some(LimitIsNaN)
    case Numeric(_) => None
    case _ => Some(LimitNotNumeric)
  }

  /** `start(limit)`: the clock is read and stored before the limit is
      checked, so a refused limit still moves the start of an existing
      timer; an accepted one replaces the limit and makes the timer
      running and unlatched. */
  function Start(t: Timer, arg: LimitArg, now: real): (r: Step<Timer>)
    ensures r.after.startTime == now
    ensures r.status.Done? <==> LimitError(arg).None?
    ensures r.status.Raised? ==> r.status.error == LimitError(arg).value
                                 && r.after.limit == t.limit && r.after.runningTime == t.runningTime
                                 && r.after.latched == t.latched
    ensures r.status.Done? ==> Running(r.after) && !r.after.latched && r.after.limit == arg.number
  {
    var moved := t.(startTime := now);
    match LimitError(arg)
    case Some(e) => Step(moved, Raised(e))
    case None => Step(Timer(now, arg.number, None, false), Done)
  }

  /** `Timer(limit)`: a refused limit means there is no timer. */
  function New(arg: LimitArg, now: real): (r: Result<Timer>)
    ensures r.Err? <==> LimitError(arg).Some?
    ensures r.Err? ==> r.error == LimitError(arg).value
    ensures r.Ok? ==> Running(r.value) && !r.value.latched && r.value.startTime == now
                      && r.value.limit == arg.number
  {
    var s := Start(Timer(now, PosInf, None, false), arg, now);
    if s.status.Raised? then Err(s.status.error) else Ok(s.after)
  }

  /** `stop()`: the first call freezes the time elapsed since the start;
      later calls return it unchanged. As written the flag is not
      consulted; corrected, the first call also latches a request
      outstanding at that moment, as the documentation of `expired()`
      promises. */
  function Stop(rev: Revision, t: Timer, requested: bool, now: real): (r: Answer<Timer, real>)
    ensures !Running(r.after)
    ensures r.after.runningTime == Some(r.value)
    ensures Running(t) ==> r.value == now - t.startTime
    ensures !Running(t) ==> r.after == t
    ensures r.after.startTime == t.startTime && r.after.limit == t.limit
    ensures r.after.latched == (t.latched || (rev == Corrected && Running(t) && requested))
  {
    match t.runningTime
    case Some(rt) => Answer(rt, t)
    case None =>
      var seen := rev == Corrected && requested;
      Answer(now - t.startTime, t.(runningTime := Some(now - t.startTime), latched := t.latched || seen))
  }

  /** `remaining()`: zero once stopped; zero while running with a request
      outstanding, which latches the timer; otherwise the limit less the
      time elapsed. */
  function Remaining(t: Timer, requested: bool, now: real): (r: Answer<Timer, Float>)
    ensures !Running(t) ==> r == Answer(Zero, t)
    ensures Running(t) && requested ==> r.value == Zero && r.after == t.(latched := true)
    ensures Running(t) && !requested ==> r.after == t && r.value == Minus(t.limit, now - t.startTime)
  {
    if !Running(t) then Answer(Zero, t)
    else if requested then Answer(Zero, t.(latched := true))
    else Answer(Minus(t.limit, now - t.startTime), t)
  }

  /** `expired()`: while running, whether `remaining()` is at most zero
      (with the same latching); once stopped, the latch or whether the
      frozen time exceeds the limit. */
  function Expired(t: Timer, requested: bool, now: real): (r: Answer<Timer, bool>)
    ensures r.after == Remaining(t, requested, now).after
    ensures !Running(t) ==> r.value == (t.latched || Exceeds(t.runningTime.value, t.limit))
  {
    if Running(t) then
      var rem := Remaining(t, requested, now);
      Answer(AtMostZero(rem.value), rem.after)
    else Answer(t.latched || Exceeds(t.runningTime.value, t.limit), t)
  }

  // ---------------------------------------------------------------------
  // Properties

  /** Stopping twice is stopping once, whatever the clock says the second
      time. */
  lemma StopIdempotent(rev: Revision, t: Timer, requested1: bool, now1: real, requested2: bool, now2: real)
    ensures var s := Stop(rev, t, requested1, now1);
      Stop(rev, s.after, requested2, now2) == s
  {
  }

  /** While running, `expired()` is exactly "`remaining()` is at most
      zero", so it is true when a request is outstanding and, without one,
      when the limit has been used up; it leaves the timer as `remaining()`
      would. */
  lemma ExpiredWhileRunning(t: Timer, requested: bool, now: real)
    requires Running(t)
    ensures Expired(t, requested, now).value == AtMostZero(Remaining(t, requested, now).value)
    ensures requested ==> Expired(t, requested, now).value && Expired(t, requested, now).after.latched
    ensures !requested ==> (Expired(t, requested, now).value <==> AtMostZero(Minus(t.limit, now - t.startTime)))
  {
  }

  /** While running, a `reset()` brings a timer back: with a finite limit
      not yet used up, it is expired while the request stands and not
      expired once it is withdrawn, even though it latched. */
  lemma ResetRevivesRunningTimer(t: Timer, now: real)
    requires Running(t) && t.limit.Finite? && now - t.startTime < t.limit.value
    ensures var asked := Expired(t, true, now);
      && asked.value && asked.after.latched
      && !Expired(asked.after, false, now).value
  {
  }

  /** Once stopped, neither the clock nor the flag changes the answers:
      `remaining()` is zero and `expired()` is fixed, and neither call
      changes the timer. */
  lemma StoppedIsFrozen(t: Timer, requested1: bool, now1: real, requested2: bool, now2: real)
    requires !Running(t)
    ensures Remaining(t, requested1, now1) == Remaining(t, requested2, now2) == Answer(Zero, t)
    ensures Expired(t, requested1, now1) == Expired(t, requested2, now2)
    ensures Expired(t, requested1, now1).after == t
  {
  }

  /** The default limit is infinite: without a request, a running timer
      has infinitely long left and never expires. */
  lemma InfiniteLimitNeverRunsOut(now0: real, now: real)
    ensures New(Numeric(PosInf), now0).Ok?
    ensures var t := New(Numeric(PosInf), now0).value;
      Remaining(t, false, now).value == PosInf && !Expired(t, false, now).value
  {
  }

  /** A new timer with a finite limit counts down from it: asked at once it
      has the whole limit left and, for a positive limit, is not expired;
      once the limit has passed it has nothing left and is expired. */
  lemma FiniteLimitCountsDown(limit: real, now0: real, now: real)
    ensures New(Numeric(Finite(limit)), now0).Ok?
    ensures var t := New(Numeric(Finite(limit)), now0).value;
      && Remaining(t, false, now0).value == Finite(limit)
      && (limit > 0.0 ==> !Expired(t, false, now0).value)
      && (now - now0 >= limit ==> AtMostZero(Remaining(t, false, now).value) && Expired(t, false, now).value)
  {
  }

  /** A new timer asked while a request is outstanding is expired,
      whatever its limit. */
  lemma RequestExpiresFreshTimer(arg: LimitArg, now0: real, now: real)
    requires LimitError(arg).None?
    ensures New(arg, now0).Ok? && Expired(New(arg, now0).value, true, now).value
  {
  }

  /** A timer stopped before its finite limit ran out, with no request
      outstanding, is not expired, and stays so however late it is asked. */
  lemma EarlyStopNeverExpires(rev: Revision, t: Timer, stopAt: real, requested: bool, now: real)
    requires Running(t) && !t.latched && t.limit.Finite? && stopAt - t.startTime <= t.limit.value
    ensures !Expired(Stop(rev, t, false, stopAt).after, requested, now).value
  {
  }

  /** A refused restart moves the start of a running timer and keeps its
      limit, so the time left is measured from the failed call. */
  lemma FailedRestartShiftsEpoch(t: Timer, arg: LimitArg, now: real)
    requires Running(t) && LimitError(arg).Some?
    ensures var s := Start(t, arg, now);
      && s.status.Raised? && Running(s.after)
      && Remaining(s.after, false, now).value == t.limit
  {
  }

  // ---------------------------------------------------------------------
  // Traces: when the latch is set

  /** A call a listener makes, or a change of the flag, at a clock
      reading. */
  datatype Event = Stopped | AskedRemaining | AskedExpired | Flagged(op: FlagOp)
  datatype Timed = Timed(event: Event, at: real)

  /** A timer together with the shutdown flag it reads. */
  datatype World = World(timer: Timer, flag: Flag)

  function Perform(w: World, e: Timed): World
  {
    match e.event
    case Stopped => w.(timer := Stop(AsWritten, w.timer, Requested(w.flag), e.at).after)
    case AskedRemaining => w.(timer := Remaining(w.timer, Requested(w.flag), e.at).after)
    case AskedExpired => w.(timer := Expired(w.timer, Requested(w.flag), e.at).after)
    case Flagged(op) => w.(flag := Apply(w.flag, op))
  }

  /** The worlds `es` passes through: the one before each event, then the
      last. */
  function Worlds(w: World, es: seq<Timed>): (ws: seq<World>)
    ensures |ws| == |es| + 1 && ws[0] == w
    decreases |es|
  {
    if es == [] then [w] else [w] + Worlds(Perform(w, es[0]), es[1..])
  }

  /** A query made while the timer runs and a request is outstanding. */
  predicate SeesRequest(w: World, e: Timed)
  {
    (e.event.AskedRemaining? || e.event.AskedExpired?) && Running(w.timer) && Requested(w.flag)
  }

  /** Between starts, the timer is latched at the end exactly when it was
      latched at the beginning or some query saw a request while it was
      running. `stop` alone never latches, however the flag stands. */
  lemma {:induction false} LatchRecordsSeenRequest(w: World, es: seq<Timed>)
    ensures var ws := Worlds(w, es);
      ws[|es|].timer.latched <==>
        w.timer.latched || exists i :: 0 <= i < |es| && SeesRequest(ws[i], es[i])
    decreases |es|
  {
    if es != [] {
      var w1 := Perform(w, es[0]);
      var ws := Worlds(w, es);
      var rest := Worlds(w1, es[1..]);
      LatchRecordsSeenRequest(w1, es[1..]);
      assert ws == [w] + rest;
      assert w1.timer.latched <==> w.timer.latched || SeesRequest(w, es[0]);
      if exists i :: 0 <= i < |es| && SeesRequest(ws[i], es[i]) {
        var i :| 0 <= i < |es| && SeesRequest(ws[i], es[i]);
        if i > 0 {
          assert SeesRequest(rest[i - 1], es[1..][i - 1]);
        }
      }
      if exists j :: 0 <= j < |es[1..]| && SeesRequest(rest[j], es[1..][j]) {
        var j :| 0 <= j < |es[1..]| && SeesRequest(rest[j], es[1..][j]);
        assert SeesRequest(ws[j + 1], es[j + 1]);
      }
    }
  }

  /** A request made and then stopped on without a query in between is
      not remembered: the stopped timer is not expired. */
  lemma StopWithoutQueryMissesRequest(t: Timer, at: real, later: real)
    requires Running(t) && !t.latched && t.limit == PosInf
    ensures var ws := Worlds(World(t, Initial), [Timed(Flagged(RequestOp), at), Timed(Stopped, at)]);
      Requested(ws[2].flag) && !Expired(ws[2].timer, true, later).value
  {
  }

  /** Corrected, a request outstanding at the first `stop()` is kept: the
      stopped timer is expired however late it is asked and whatever the
      flag says by then. Without a request the corrected stop is the stop
      as written. */
  lemma StopRemembersRequest(t: Timer, stopAt: real, requested: bool, later: real)
    requires Running(t)
    ensures Expired(Stop(Corrected, t, true, stopAt).after, requested, later).value
    ensures Stop(Corrected, t, false, stopAt) == Stop(AsWritten, t, false, stopAt)
    ensures Stop(AsWritten, t, true, stopAt) == Stop(AsWritten, t, false, stopAt)
  {
  }
}
