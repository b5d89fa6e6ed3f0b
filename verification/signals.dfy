/** The process's signal table, made abstract.

    The operating system keeps one disposition per signal; `signal.signal`
    installs a new one and returns the old one. A `Table` records the
    dispositions the model has touched; a signal missing from it has the
    default disposition. `signal.signal` refuses two things: a handler for a
    signal the system does not let a process catch (OSError), and `None`,
    which `signal.getsignal` reports for a handler not installed from Python
    but which cannot be installed back (TypeError). */
module Signals {

  /** The signals the modelled code names, the two a process cannot catch,
      and any further catchable signal, told apart by `number`. */
  datatype Sig =
    | SIGINT | SIGTERM | SIGQUIT | SIGBREAK | SIGUSR1 | SIGUSR2
    | SIGKILL | SIGSTOP
    | Other(number: nat)

  predicate Catchable(s: Sig)
  {
    s != SIGKILL && s != SIGSTOP
  }

  /** What `signal.getsignal` can report: the two standard dispositions,
      `None` for a handler not installed from Python, a handler the program
      installed itself, or the handler the shutdown guard `owner` installed
      for its `intended` signal. */
  datatype Handler =
    | SigDfl
    | SigIgn
    | NotFromPython
    | UserHandler(id: nat)
    | Guarded(owner: nat, intended: Sig)

  type Table = map<Sig, Handler>

  /** The handler a saved snapshot or the process table holds for `s`. */
  function Get(t: Table, s: Sig): Handler
  {
    if s in t then t[s] else SigDfl
  }

  /** Two tables give every signal the same disposition. */
  ghost predicate Agree(a: Table, b: Table)
  {
    forall s :: Get(a, s) == Get(b, s)
  }

  /** The number of leading signals of `sigs` that can be caught: an
      installing loop gets that far before `signal.signal` raises. */
  function CatchablePrefix(sigs: seq<Sig>): (n: nat)
    ensures n <= |sigs|
    ensures forall i :: 0 <= i < n ==> Catchable(sigs[i])
    ensures n < |sigs| ==> !Catchable(sigs[n])
    decreases |sigs|
  {
    if sigs == [] || !Catchable(sigs[0]) then 0 else 1 + CatchablePrefix(sigs[1..])
  }

  /** The position in `order` of the first signal saved with `None`, or
      `|order|` when there is none: where a restoring loop walking `order`
      meets the handler `signal.signal` refuses. */
  function FirstNone(order: seq<Sig>, saved: map<Sig, Handler>): (k: nat)
    ensures k <= |order|
    ensures forall j :: 0 <= j < k ==> !(order[j] in saved && saved[order[j]] == NotFromPython)
    ensures k < |order| ==> order[k] in saved && saved[order[k]] == NotFromPython
    decreases |order|
  {
    if order == [] || (order[0] in saved && saved[order[0]] == NotFromPython) then 0
    else 1 + FirstNone(order[1..], saved)
  }

  /** Every saved signal gets its saved handler back; every other signal
      keeps what `t` gives it. The reference for a restoring loop that
      runs to its end. */
  function Restore(t: Table, saved: map<Sig, Handler>): (r: Table)
    ensures forall s :: Get(r, s) == if s in saved then saved[s] else Get(t, s)
  {
    t + saved
  }

  /** Where a restoring loop stopped: the table, the saved entries still
      undeleted, how many signals of the walk order it got through, and
      whether it stopped at a handler it could not reinstall. */
  datatype Reinstalled = Reinstalled(table: Table, left: map<Sig, Handler>, reached: nat, failed: bool)

  /** The restoring loop of both `_clear_signal_handlers`: walk the saved
      entries in dict order, reinstall each and delete it. `order` lists
      the saved signals in the order they were first saved; a signal not
      (or no longer) saved is skipped. Reinstalling `None` raises
      TypeError: the loop stops there, with the earlier entries reinstalled
      and deleted and the rest still saved. */
  function ReinstallInOrder(t: Table, saved: map<Sig, Handler>, order: seq<Sig>): (r: Reinstalled)
    ensures r.reached <= |order|
    ensures r.failed <==> r.reached < |order|
    ensures forall s :: s in r.left <==> s in saved && s !in order[..r.reached]
    ensures forall s :: s in r.left ==> r.left[s] == saved[s] && Get(r.table, s) == Get(t, s)
    ensures forall s :: s in saved && s !in r.left ==> Get(r.table, s) == saved[s] && saved[s] != NotFromPython
    ensures forall s :: s !in saved ==> Get(r.table, s) == Get(t, s)
    ensures r.failed ==> order[r.reached] in r.left && r.left[order[r.reached]] == NotFromPython
    decreases |order|, 1
  {
    if order == [] then Reinstalled(t, saved, 0, false)
    else
      var s := order[0];
      if s in saved && saved[s] == NotFromPython then Reinstalled(t, saved, 0, true)
      else
        var rest := if s in saved then ReinstallInOrder(t[s := saved[s]], saved - {s}, order[1..])
                    else ReinstallInOrder(t, saved, order[1..]);
        ReinstallStepLeft(t, saved, order, rest);
        ReinstallStepTable(t, saved, order, rest);
        Reinstalled(rest.table, rest.left, rest.reached + 1, rest.failed)
  }

  /** The induction step of `ReinstallInOrder` for the entries left. */
  lemma ReinstallStepLeft(t: Table, saved: map<Sig, Handler>, order: seq<Sig>, rest: Reinstalled)
    requires order != [] && !(order[0] in saved && saved[order[0]] == NotFromPython)
    requires rest == if order[0] in saved then ReinstallInOrder(t[order[0] := saved[order[0]]], saved - {order[0]}, order[1..])
                     else ReinstallInOrder(t, saved, order[1..])
    ensures rest.reached + 1 <= |order|
    ensures rest.failed <==> rest.reached + 1 < |order|
    ensures forall s :: s in rest.left <==> s in saved && s !in order[..rest.reached + 1]
    ensures rest.failed ==> order[rest.reached + 1] in rest.left && rest.left[order[rest.reached + 1]] == NotFromPython
    decreases |order|, 0
  {
    assert order[..rest.reached + 1] == [order[0]] + order[1..][..rest.reached];
  }

  /** The induction step of `ReinstallInOrder` for the table. */
  lemma ReinstallStepTable(t: Table, saved: map<Sig, Handler>, order: seq<Sig>, rest: Reinstalled)
    requires order != [] && !(order[0] in saved && saved[order[0]] == NotFromPython)
    requires rest == if order[0] in saved then ReinstallInOrder(t[order[0] := saved[order[0]]], saved - {order[0]}, order[1..])
                     else ReinstallInOrder(t, saved, order[1..])
    ensures forall s :: s in rest.left ==> rest.left[s] == saved[s] && Get(rest.table, s) == Get(t, s)
    ensures forall s :: s in saved && s !in rest.left ==> Get(rest.table, s) == saved[s] && saved[s] != NotFromPython
    ensures forall s :: s !in saved ==> Get(rest.table, s) == Get(t, s)
    decreases |order|, 0
  {
  }

  /** The restoring loop gets exactly as far as the first saved `None` on
      its walk: everything before it is reinstalled and deleted, it and
      everything after it stay saved. */
  lemma {:induction false} ReinstallStopsAtFirstNone(t: Table, saved: map<Sig, Handler>, order: seq<Sig>)
    ensures ReinstallInOrder(t, saved, order).reached == FirstNone(order, saved)
    decreases |order|
  {
    if order != [] && !(order[0] in saved && saved[order[0]] == NotFromPython) {
      var s := order[0];
      if s in saved {
        ReinstallStopsAtFirstNone(t[s := saved[s]], saved - {s}, order[1..]);
        FirstNoneWithout(order[1..], saved, s);
      } else {
        ReinstallStopsAtFirstNone(t, saved, order[1..]);
      }
    }
  }

  /** Forgetting a saved entry that can be reinstalled does not move the
      first saved `None`. */
  lemma FirstNoneWithout(order: seq<Sig>, saved: map<Sig, Handler>, s: Sig)
    requires s in saved && saved[s] != NotFromPython
    ensures FirstNone(order, saved - {s}) == FirstNone(order, saved)
  {
  }

  /** The restoring loop fails exactly when some saved signal on its walk
      holds `None`; when it does not fail it reinstalls what `Restore`
      describes for the signals it walks, and with every saved signal on
      the walk it leaves nothing saved. */
  lemma ReinstallComplete(t: Table, saved: map<Sig, Handler>, order: seq<Sig>)
    ensures var r := ReinstallInOrder(t, saved, order);
      r.failed <==> exists s :: s in order && s in saved && saved[s] == NotFromPython
    ensures var r := ReinstallInOrder(t, saved, order);
      !r.failed && (forall s :: s in saved ==> s in order) ==>
        r.left == map[] && Agree(r.table, Restore(t, saved))
  {
    ReinstallFailsAtNone(t, saved, order);
    ReinstallRestores(t, saved, order);
  }

  lemma ReinstallFailsAtNone(t: Table, saved: map<Sig, Handler>, order: seq<Sig>)
    ensures var r := ReinstallInOrder(t, saved, order);
      r.failed <==> exists s :: s in order && s in saved && saved[s] == NotFromPython
  {
    var r := ReinstallInOrder(t, saved, order);
    if !r.failed {
      assert order[..r.reached] == order;
    } else {
      assert order[r.reached] in order;
    }
  }

  lemma ReinstallRestores(t: Table, saved: map<Sig, Handler>, order: seq<Sig>)
    ensures var r := ReinstallInOrder(t, saved, order);
      !r.failed && (forall s :: s in saved ==> s in order) ==>
        r.left == map[] && Agree(r.table, Restore(t, saved))
  {
    var r := ReinstallInOrder(t, saved, order);
    if !r.failed && forall s :: s in saved ==> s in order {
      assert order[..r.reached] == order;
      assert r.left.Keys == {};
    }
  }

  /** A walk that meets no saved signal changes nothing. */
  lemma ReinstallNothing(t: Table, saved: map<Sig, Handler>, order: seq<Sig>)
    requires forall s :: s in order ==> s !in saved
    ensures ReinstallInOrder(t, saved, order) == Reinstalled(t, saved, |order|, false)
    decreases |order|
  {
    if order != [] {
      ReinstallNothing(t, saved, order[1..]);
    }
  }

  /** Where the code runs: it picks the default signal set by `os.name`. */
  datatype Platform = Posix | Windows

  /** The default signals of `catch_signals`: SIGINT with SIGTERM on POSIX
      and with SIGBREAK on Windows, where they are also the only ones
      allowed. */
  function DefaultSignals(p: Platform): seq<Sig>
  {
    match p
    case Posix => [SIGINT, SIGTERM]
    case Windows => [SIGINT, SIGBREAK]
  }
}
