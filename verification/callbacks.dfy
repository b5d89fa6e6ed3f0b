/** The callback check of `catch_signals`: `_two_pos_args` decides, from a
    callable's parameter list, whether the guard may call it with a signal
    and a stack frame.

    `inspect.signature` is replaced by the parameter list itself: each
    parameter has a kind and may have a default. A callable without a
    signature makes `signature` raise, and that exception escapes the
    check (`SignatureError`). */
module Callbacks {
  import Results

  datatype ParamKind =
    | PositionalOnly
    | PositionalOrKeyword
    | VarPositional        // *args
    | KeywordOnly
    | VarKeyword           // **kwargs

  datatype Param = Param(kind: ParamKind, hasDefault: bool)

  /** What is passed as the callback: something `callable` rejects, a
      callable `inspect.signature` cannot describe (it raises TypeError for
      an object of an unsupported type and ValueError when no signature can
      be provided), or a callable with its signature. */
  datatype Candidate = NotCallable | NoSignature(unsupported: bool) | Callable(params: seq<Param>)

  /** How many positional arguments a signature can take: the code keeps a
      float that becomes `inf` at `*args`. */
  datatype Capacity = Bounded(n: nat) | Unbounded

  function AddOne(c: Capacity): Capacity
  {
    match c
    case Bounded(n) => Bounded(n + 1)
    case Unbounded => Unbounded
  }

  predicate AtLeastTwo(c: Capacity)
  {
    c.Unbounded? || c.n >= 2
  }

  /** The three loop variables: `required`, `available`, and whether a
      parameter was seen that rules the callable out (`kwargs_only`). */
  datatype Tally = Tally(required: nat, available: Capacity, rejects: bool)

  const NoParams: Tally := Tally(0, Bounded(0), false)

  /** One iteration of the loop in `_two_pos_args`, as written. */
  function StepAsWritten(acc: Tally, p: Param): Tally
  {
    match p.kind
    case PositionalOnly => acc.(required := acc.required + 1)
    case PositionalOrKeyword =>
      acc.(available := AddOne(acc.available),
           required := if p.hasDefault then acc.required else acc.required + 1)
    case VarPositional => acc.(available := Unbounded)
    case KeywordOnly => acc.(rejects := true)
    case VarKeyword => acc
  }

  /** One iteration with the correction listed under Findings: every
      positional parameter can take an argument and needs one only when it
      has no default; only a keyword-only parameter without a default
      rules the callable out. */
  function Step(acc: Tally, p: Param): Tally
  {
    match p.kind
    case PositionalOnly | PositionalOrKeyword =>
      acc.(available := AddOne(acc.available),
           required := if p.hasDefault then acc.required else acc.required + 1)
    case VarPositional => acc.(available := Unbounded)
    case KeywordOnly => acc.(rejects := acc.rejects || !p.hasDefault)
    case VarKeyword => acc
  }

  /** The loop: fold `step` over the parameters, first to last. */
  function TallyAll(step: (Tally, Param) -> Tally, acc: Tally, ps: seq<Param>): Tally
    decreases |ps|
  {
    if ps == [] then acc else TallyAll(step, step(acc, ps[0]), ps[1..])
  }

  /** The returned expression `required <= 2 and available >= 2 and not
      kwargs_only`. */
  predicate Verdict(t: Tally)
  {
    t.required <= 2 && AtLeastTwo(t.available) && !t.rejects
  }

  /** `_two_pos_args` as written, where it answers: false for what is not
      callable. For a callable without a signature it raises instead (see
      `SignatureError`). */
  predicate TwoPosArgsAsWritten(c: Candidate)
  {
    c.Callable? && Verdict(TallyAll(StepAsWritten, NoParams, c.params))
  }

  /** `_two_pos_args` with the correction listed under Findings. */
  predicate TwoPosArgs(c: Candidate)
  {
    c.Callable? && Verdict(TallyAll(Step, NoParams, c.params))
  }

  /** The exception `signature(f)` raises inside `_two_pos_args`, if any:
      only a callable gets that far. */
  function SignatureError(c: Candidate): (e: Results.Option<Results.Error>)
    ensures e.Some? <==> c.NoSignature?
    ensures e.Some? ==> Results.ClassOf(e.value) == if c.unsupported then Results.TypeError else Results.ValueError
  {
    match c
    case NoSignature(unsupported) =>
      Results.Some(if unsupported then Results.SignatureUnsupported else Results.SignatureUnavailable)
    case _ => Results.None
  }

  // ---------------------------------------------------------------------
  // Counting parameters

  predicate IsPositional(p: Param)
  {
    p.kind == PositionalOnly || p.kind == PositionalOrKeyword
  }

  predicate IsPositionalOrKeyword(p: Param)
  {
    p.kind == PositionalOrKeyword
  }

  predicate IsVarPositional(p: Param)
  {
    p.kind == VarPositional
  }

  predicate IsKeywordOnly(p: Param)
  {
    p.kind == KeywordOnly
  }

  /** A parameter the code as written counts as required. */
  predicate RequiredAsWritten(p: Param)
  {
    p.kind == PositionalOnly || (p.kind == PositionalOrKeyword && !p.hasDefault)
  }

  /** A positional parameter a call must fill. */
  predicate RequiredPositional(p: Param)
  {
    IsPositional(p) && !p.hasDefault
  }

  /** A keyword-only parameter a call must name. */
  predicate RequiredKeywordOnly(p: Param)
  {
    p.kind == KeywordOnly && !p.hasDefault
  }

  predicate NoDefault(p: Param)
  {
    !p.hasDefault
  }

  function Count(ps: seq<Param>, f: Param -> bool): nat
    decreases |ps|
  {
    if ps == [] then 0 else (if f(ps[0]) then 1 else 0) + Count(ps[1..], f)
  }

  predicate Has(ps: seq<Param>, f: Param -> bool)
    decreases |ps|
  {
    ps != [] && (f(ps[0]) || Has(ps[1..], f))
  }

  /** The positional parameters, in order. */
  function Positional(ps: seq<Param>): (pos: seq<Param>)
    ensures |pos| == Count(ps, IsPositional)
    decreases |ps|
  {
    if ps == [] then []
    else if IsPositional(ps[0]) then [ps[0]] + Positional(ps[1..])
    else Positional(ps[1..])
  }

  function AddCount(c: Capacity, k: nat): Capacity
  {
    match c
    case Bounded(n) => Bounded(n + k)
    case Unbounded => Unbounded
  }

  // ---------------------------------------------------------------------
  // What the loops compute

  /** The loop as written counts every positional-only parameter and every
      positional-or-keyword one without a default as required, only
      positional-or-keyword ones as available, and rejects on any
      keyword-only parameter. */
  lemma {:induction false} TallyAsWrittenCounts(acc: Tally, ps: seq<Param>)
    ensures TallyAll(StepAsWritten, acc, ps) == Tally(
      acc.required + Count(ps, RequiredAsWritten),
      if Has(ps, IsVarPositional) then Unbounded
      else AddCount(acc.available, Count(ps, IsPositionalOrKeyword)),
      acc.rejects || Has(ps, IsKeywordOnly))
    decreases |ps|
  {
    if ps != [] {
      TallyAsWrittenCounts(StepAsWritten(acc, ps[0]), ps[1..]);
    }
  }

  /** The corrected loop counts positional parameters without a default as
      required, all positional parameters as available, and rejects on a
      keyword-only parameter without a default. */
  lemma {:induction false} TallyCounts(acc: Tally, ps: seq<Param>)
    ensures TallyAll(Step, acc, ps) == Tally(
      acc.required + Count(ps, RequiredPositional),
      if Has(ps, IsVarPositional) then Unbounded
      else AddCount(acc.available, Count(ps, IsPositional)),
      acc.rejects || Has(ps, RequiredKeywordOnly))
    decreases |ps|
  {
    if ps != [] {
      TallyCounts(Step(acc, ps[0]), ps[1..]);
    }
  }

  lemma {:induction false} CountMonotone(ps: seq<Param>, f: Param -> bool, g: Param -> bool)
    requires forall p :: f(p) ==> g(p)
    ensures Count(ps, f) <= Count(ps, g)
    decreases |ps|
  {
    if ps != [] {
      CountMonotone(ps[1..], f, g);
    }
  }

  lemma {:induction false} HasMonotone(ps: seq<Param>, f: Param -> bool, g: Param -> bool)
    requires forall p :: f(p) ==> g(p)
    ensures Has(ps, f) ==> Has(ps, g)
    decreases |ps|
  {
    if ps != [] {
      HasMonotone(ps[1..], f, g);
    }
  }

  lemma {:induction false} RequiredPositionalCount(ps: seq<Param>)
    ensures Count(ps, RequiredPositional) == Count(Positional(ps), NoDefault)
    decreases |ps|
  {
    if ps != [] {
      RequiredPositionalCount(ps[1..]);
      if IsPositional(ps[0]) {
        assert ([ps[0]] + Positional(ps[1..]))[1..] == Positional(ps[1..]);
      }
    }
  }

  // ---------------------------------------------------------------------
  // What a call with two positional arguments needs

  /** Python's rule that, among positional parameters, one without a
      default cannot follow one with a default. */
  predicate DefaultsTrail(q: seq<Param>)
  {
    forall i, j :: 0 <= i < j < |q| && q[i].hasDefault ==> q[j].hasDefault
  }

  /** A call `f(signum, frame)` binds: there is room for two positional
      arguments, every positional parameter after the first two has a
      default, and no keyword-only parameter lacks one. */
  predicate AcceptsTwoPositional(ps: seq<Param>)
  {
    var pos := Positional(ps);
    && (Has(ps, IsVarPositional) || |pos| >= 2)
    && (forall i :: 2 <= i < |pos| ==> pos[i].hasDefault)
    && !Has(ps, RequiredKeywordOnly)
  }

  lemma {:induction false} FewRequiredWhenTailDefaults(q: seq<Param>, m: nat)
    requires forall i :: m <= i < |q| ==> q[i].hasDefault
    ensures Count(q, NoDefault) <= m
    decreases |q|
  {
    if q != [] {
      if m == 0 {
        FewRequiredWhenTailDefaults(q[1..], 0);
      } else {
        FewRequiredWhenTailDefaults(q[1..], m - 1);
      }
    }
  }

  lemma {:induction false} ManyRequiredWhenHeadRequired(q: seq<Param>, i: nat)
    requires i < |q|
    requires forall j :: 0 <= j <= i ==> !q[j].hasDefault
    ensures Count(q, NoDefault) >= i + 1
    decreases |q|
  {
    if i > 0 {
      ManyRequiredWhenHeadRequired(q[1..], i - 1);
    }
  }

  /** With trailing defaults, at most two required positional parameters is
      the same as defaults on every positional parameter past the second. */
  lemma RequiredAtMostTwo(q: seq<Param>)
    requires DefaultsTrail(q)
    ensures Count(q, NoDefault) <= 2 <==> forall i :: 2 <= i < |q| ==> q[i].hasDefault
  {
    if forall i :: 2 <= i < |q| ==> q[i].hasDefault {
      FewRequiredWhenTailDefaults(q, 2);
    } else {
      var i :| 2 <= i < |q| && !q[i].hasDefault;
      ManyRequiredWhenHeadRequired(q, i);
    }
  }

  // ---------------------------------------------------------------------
  // Properties of the check

  /** The corrected check accepts exactly the callables that a call with two
      positional arguments binds to, and rejects what is not callable. */
  lemma TwoPosArgsExact(c: Candidate)
    requires c.Callable? ==> DefaultsTrail(Positional(c.params))
    ensures TwoPosArgs(c) <==> c.Callable? && AcceptsTwoPositional(c.params)
  {
    if c.Callable? {
      var ps := c.params;
      TallyCounts(NoParams, ps);
      RequiredPositionalCount(ps);
      RequiredAtMostTwo(Positional(ps));
    }
  }

  /** Whatever the check as written accepts, the corrected one accepts. */
  lemma TwoPosArgsAsWrittenSound(c: Candidate)
    ensures TwoPosArgsAsWritten(c) ==> TwoPosArgs(c)
  {
    if c.Callable? {
      var ps := c.params;
      TallyAsWrittenCounts(NoParams, ps);
      TallyCounts(NoParams, ps);
      CountMonotone(ps, RequiredPositional, RequiredAsWritten);
      CountMonotone(ps, IsPositionalOrKeyword, IsPositional);
      HasMonotone(ps, RequiredKeywordOnly, IsKeywordOnly);
    }
  }

  /** `def cb(signum, frame, /)` takes two positional arguments, but the
      code as written counts no positional-only parameter as available and
      rejects it. */
  lemma PositionalOnlyRejected()
    ensures var ps := [Param(PositionalOnly, false), Param(PositionalOnly, false)];
      !TwoPosArgsAsWritten(Callable(ps)) && AcceptsTwoPositional(ps) && TwoPosArgs(Callable(ps))
  {
    var ps := [Param(PositionalOnly, false), Param(PositionalOnly, false)];
    TallyAsWrittenCounts(NoParams, ps);
    TwoPosArgsExact(Callable(ps));
  }

  /** `def cb(signum, frame, *, verbose=False)` takes two positional
      arguments, but the code as written rejects every keyword-only
      parameter, even one with a default. */
  lemma DefaultedKeywordOnlyRejected()
    ensures var ps := [Param(PositionalOrKeyword, false), Param(PositionalOrKeyword, false),
                       Param(KeywordOnly, true)];
      !TwoPosArgsAsWritten(Callable(ps)) && AcceptsTwoPositional(ps) && TwoPosArgs(Callable(ps))
  {
    var ps := [Param(PositionalOrKeyword, false), Param(PositionalOrKeyword, false),
               Param(KeywordOnly, true)];
    TallyAsWrittenCounts(NoParams, ps);
    TwoPosArgsExact(Callable(ps));
  }
  /** The loop over a parameter list of at most four, step by step. */
  lemma {:induction false} Unroll(step: (Tally, Param) -> Tally, acc: Tally, ps: seq<Param>)
    requires 0 < |ps| <= 4
    ensures TallyAll(step, acc, ps) ==
      var t1 := step(acc, ps[0]);
      if |ps| == 1 then t1 else
      var t2 := step(t1, ps[1]);
      if |ps| == 2 then t2 else
      var t3 := step(t2, ps[2]);
      if |ps| == 3 then t3 else step(t3, ps[3])
    decreases |ps|
  {
    if |ps| > 1 {
      Unroll(step, step(acc, ps[0]), ps[1..]);
    }
  }

  /** The shapes the test suite accepts, `(signum, frame)`, `(*args)`,
      `(a=None, b=None, c=None)` and `(a, *args)`, pass both checks. */
  lemma AcceptedShapes()
    ensures var pk, pkd := Param(PositionalOrKeyword, false), Param(PositionalOrKeyword, true);
      var star := Param(VarPositional, false);
      forall ps | ps in [[pk, pk], [star], [pkd, pkd, pkd], [pk, star]] ::
        TwoPosArgsAsWritten(Callable(ps)) && TwoPosArgs(Callable(ps))
  {
    var pk, pkd := Param(PositionalOrKeyword, false), Param(PositionalOrKeyword, true);
    var star := Param(VarPositional, false);
    forall ps | ps in [[pk, pk], [star], [pkd, pkd, pkd], [pk, star]]
      ensures TwoPosArgsAsWritten(Callable(ps)) && TwoPosArgs(Callable(ps))
    {
      Unroll(StepAsWritten, NoParams, ps);
      Unroll(Step, NoParams, ps);
    }
  }

  /** The shapes the test suite rejects, `(a)`, `(a, b, c)`, `(a, *, b)`,
      `(*, a, b)`, `(a, b, *, c)`, `ord` and `(a, b, *, c, **kwargs)`, and
      anything not callable, fail both checks. */
  lemma RejectedShapes()
    ensures var pk, po := Param(PositionalOrKeyword, false), Param(PositionalOnly, false);
      var kw, kws := Param(KeywordOnly, false), Param(VarKeyword, false);
      && !TwoPosArgsAsWritten(NotCallable) && !TwoPosArgs(NotCallable)
      && forall ps | ps in [[pk], [pk, pk, pk], [pk, kw], [kw, kw], [pk, pk, kw], [po], [pk, pk, kw, kws]] ::
           !TwoPosArgsAsWritten(Callable(ps)) && !TwoPosArgs(Callable(ps))
  {
    var pk, po := Param(PositionalOrKeyword, false), Param(PositionalOnly, false);
    var kw, kws := Param(KeywordOnly, false), Param(VarKeyword, false);
    forall ps | ps in [[pk], [pk, pk, pk], [pk, kw], [kw, kw], [pk, pk, kw], [po], [pk, pk, kw, kws]]
      ensures !TwoPosArgsAsWritten(Callable(ps)) && !TwoPosArgs(Callable(ps))
    {
      Unroll(StepAsWritten, NoParams, ps);
      Unroll(Step, NoParams, ps);
    }
  }
}
