/** The process-wide shutdown flag (a `threading.Event`): `request` sets it,
    `reset` clears it, `requested` reads it. The older `shutdown` package
    defines the same three operations on a flag of its own, with the same
    bodies, so this module models both. */
module Requests {

  datatype Flag = Flag(isSet: bool)

  /** A new event is clear. */
  const Initial: Flag := Flag(false)

  predicate Requested(f: Flag)
  {
    f.isSet
  }

  function Request(f: Flag): (r: Flag)
    ensures Requested(r)
  {
    Flag(true)
  }

  function Reset(f: Flag): (r: Flag)
    ensures !Requested(r)
  {
    Flag(false)
  }

  /** Both writers are idempotent, each ignores what it overwrites, and
      reading leaves the flag as it was (a function cannot change it). */
  lemma WriterLaws(f: Flag, g: Flag)
    ensures Request(Request(f)) == Request(f)
    ensures Reset(Reset(f)) == Reset(f)
    ensures Request(f) == Request(g) && Reset(f) == Reset(g)
    ensures !Requested(Reset(Request(Initial)))
  {
  }

  datatype FlagOp = RequestOp | ResetOp

  function Apply(f: Flag, op: FlagOp): Flag
  {
    match op
    case RequestOp => Request(f)
    case ResetOp => Reset(f)
  }

  /** Apply `ops` in order, first to last. */
  function ApplyAll(f: Flag, ops: seq<FlagOp>): Flag
    decreases |ops|
  {
    if ops == [] then f else ApplyAll(Apply(f, ops[0]), ops[1..])
  }

  /** Last writer wins: after any sequence of calls the flag reads as the
      last call left it, or as it was when there were none. */
  lemma {:induction false} LastWriterWins(f: Flag, ops: seq<FlagOp>)
    ensures Requested(ApplyAll(f, ops)) ==
      (if ops == [] then Requested(f) else ops[|ops| - 1] == RequestOp)
    decreases |ops|
  {
    if ops != [] {
      LastWriterWins(Apply(f, ops[0]), ops[1..]);
      if |ops| > 1 {
        assert ops[1..][|ops[1..]| - 1] == ops[|ops| - 1];
      }
    }
  }
}
