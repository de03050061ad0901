/** The `IZHIModel` wrapper of the numba module: it keeps a parameter
    dictionary `attrs` and a cached trace `vM`, rounds the `celltype` tag
    to an integer, routes it to one of the five steppers, and builds the
    square-pulse current buffer for `inject_square_current`.

    The parameter dictionary is modelled as a record with the nine numeric
    parameters, the `celltype` tag and the optional injected current `'I'`. */
module CellModel {
  import opened Shared
  import opened Izhikevich2007

  // ---------------------------------------------------------------------
  // Numeric conversions
  // ---------------------------------------------------------------------

  /** Python's `round` on a float: to the nearest integer, ties to even. */
  function RoundHalfEven(x: real): (r: int)
    ensures -0.5 <= r as real - x <= 0.5
    ensures (r as real - x == 0.5 || r as real - x == -0.5) ==> r % 2 == 0
  {
    var f := x.Floor;
    var frac := x - f as real;
    if frac < 0.5 then f
    else if frac > 0.5 then f + 1
    else if f % 2 == 0 then f
    else f + 1
  }

  /** Rounding an integer gives it back, so a tag that has been rounded
      once is routed the same way on every later call. */
  lemma RoundIsIdempotent(x: real)
    ensures RoundHalfEven(RoundHalfEven(x) as real) == RoundHalfEven(x)
  {
    var n := RoundHalfEven(x);
    var m := RoundHalfEven(n as real);
    assert -1 < m - n < 1;
  }

  /** Python's `int` on a float: truncation toward zero. */
  function Trunc(x: real): (r: int)
    ensures x >= 0.0 ==> 0.0 <= r as real <= x < r as real + 1.0
    ensures x < 0.0 ==> r as real - 1.0 < x <= r as real <= 0.0
  {
    if x >= 0.0 then x.Floor else -((-x).Floor)
  }

  /** How a slice bound `i` is resolved against a length-`n` array: a
      negative bound counts from the end, and the result is clamped to
      `[0, n]`. */
  function SliceIndex(i: int, n: nat): (r: nat)
    ensures r <= n
    ensures 0 <= i <= n ==> r == i
    ensures i < 0 <= i + n ==> r as int == i + n
    ensures i + n < 0 ==> r == 0
    ensures n < i ==> r == n
  {
    if i < 0 then (if i + n < 0 then 0 else i + n)
    else if i > n then n
    else i
  }

  // ---------------------------------------------------------------------
  // Routing a celltype tag
  // ---------------------------------------------------------------------

  /** The branch a rounded tag takes: `<= 3`, then the tests for 4, 5, 6
      and 7; any other tag takes none of them. */
  function CellVariant(ct: int): (r: Option<Variant>)
    ensures r == Some(Types123) <==> ct <= 3
    ensures r == Some(Type4) <==> ct == 4
    ensures r == Some(Type5) <==> ct == 5
    ensures r == Some(Type6) <==> ct == 6
    ensures r == Some(Type7) <==> ct == 7
    ensures r == None <==> ct > 7
  {
    if ct <= 3 then Some(Types123)
    else if ct == 4 then Some(Type4)
    else if ct == 5 then Some(Type5)
    else if ct == 6 then Some(Type6)
    else if ct == 7 then Some(Type7)
    else None
  }

  /** The outcome of routing a rounded tag and a current to a stepper;
      a tag without a branch leaves `v` unbound. */
  function Dispatch(ct: int, p: Params, I: seq<real>): Result<seq<real>>
  {
    match CellVariant(ct)
    case None => Err(UnknownCellType)
    case Some(x) => Run(x, p, I)
  }

  /** The dispatch fails on an unknown tag and only then, and a successful
      run returns one sample per current sample. */
  lemma DispatchOutcome(ct: int, p: Params, I: seq<real>)
    ensures Dispatch(ct, p, I) == Err(UnknownCellType) <==> ct > 7
    ensures Dispatch(ct, p, I).Ok? ==> |Dispatch(ct, p, I).value| == |I|
    ensures ct <= 7 && |I| >= 2 && p.C != 0.0 ==> Dispatch(ct, p, I).Ok?
  {
    match CellVariant(ct)
    case None =>
    case Some(x) => RunOutcome(x, p, I);
  }

  /** The `if`-chain of `inject_direct_current` and
      `inject_square_current`, calling the stepper methods. */
  method RunCellType(ct: int, p: Params, I: seq<real>) returns (r: Result<seq<real>>)
    ensures r == Dispatch(ct, p, I)
  {
    if ct <= 3 {
      r := VmOneTwoThree(p, I);
    } else if ct == 4 {
      r := VmFour(p, I);
    } else if ct == 5 {
      r := VmFive(p, I);
    } else if ct == 6 {
      r := VmSix(I, p);
    } else if ct == 7 {
      r := VmSeven(p, I);
    } else {
      r := Err(UnknownCellType);
    }
  }

  // ---------------------------------------------------------------------
  // The parameter dictionary
  // ---------------------------------------------------------------------

  /** `attrs`: the stepper parameters, the `celltype` tag as stored (it may
      be a float until the first call rounds it), and the entry `'I'`. */
  datatype Attrs = Attrs(params: Params, celltype: real, current: Option<seq<real>>)

  /** `default_attrs`. */
  const DefaultAttrs: Attrs :=
    Attrs(Params(89.7960714285714, 0.01, 15.0, -60.0, 10.0, 1.6,
                 86.364525297619 - 65.2261863636364, -65.2261863636364, -50.0),
          3.0, None)

  /** The dictionary an injection works on: `attrs`, or `default_attrs`
      when `attrs` is None. */
  function Base(attrs: Option<Attrs>): Attrs
  {
    match attrs
    case Some(a) => a
    case None => DefaultAttrs
  }

  /** `attrs['celltype'] = int(round(attrs['celltype']))`. */
  function Rounded(a: Attrs): (r: Attrs)
    ensures r.params == a.params && r.current == a.current
    ensures RoundHalfEven(r.celltype) == RoundHalfEven(a.celltype)
  {
    RoundIsIdempotent(a.celltype);
    a.(celltype := RoundHalfEven(a.celltype) as real)
  }

  /** The stepper's own default for `I` when `attrs` has no `'I'`:
      `np.array([0])` for types 1-3 and 7, the empty list for types 4 and 5;
      type 6 takes `I` positionally and has no default. */
  function DefaultCurrent(x: Variant): Option<seq<real>>
  {
    match x
    case Types123 => Some([0.0])
    case Type7 => Some([0.0])
    case Type4 => Some([])
    case Type5 => Some([])
    case Type6 => None
  }

  /** The trace `get_membrane_potential` computes from `attrs` when no
      trace is cached. */
  function MembranePotential(a: Attrs): Result<seq<real>>
  {
    var ct := RoundHalfEven(a.celltype);
    match CellVariant(ct)
    case None => Err(UnknownCellType)
    case Some(x) =>
      match a.current
      case Some(I) => Run(x, a.params, I)
      case None =>
        match DefaultCurrent(x)
        case None => Err(MissingCurrent)
        case Some(I) => Run(x, a.params, I)
  }

  /** Without an injected current, types 1-3 and 7 return the single
      sample `vr`, types 4 and 5 fail on `v[0]` of an empty array and
      type 6 lacks its current argument. */
  lemma MembranePotentialWithoutCurrent(a: Attrs)
    requires a.current.None?
    ensures var ct := RoundHalfEven(a.celltype);
            && (ct <= 3 || ct == 7 ==> MembranePotential(a) == Ok([a.params.vr]))
            && (ct == 4 || ct == 5 ==> MembranePotential(a) == Err(IndexOutOfRange))
            && (ct == 6 ==> MembranePotential(a) == Err(MissingCurrent))
            && (ct > 7 ==> MembranePotential(a) == Err(UnknownCellType))
  {
    var ct := RoundHalfEven(a.celltype);
    if ct <= 3 || ct == 7 {
      var x := if ct <= 3 then Types123 else Type7;
      assert Trace(x, a.params, [0.0]) == [a.params.vr] by {
        InitialSample(x, a.params, [0.0]);
      }
    }
  }

  /** With an injected current, `get_membrane_potential` and the injections
      run the same stepper on it. */
  lemma MembranePotentialWithCurrent(a: Attrs)
    requires a.current.Some?
    ensures MembranePotential(a) == Dispatch(RoundHalfEven(a.celltype), a.params, a.current.value)
  {
  }

  // ---------------------------------------------------------------------
  // The square-pulse current buffer
  // ---------------------------------------------------------------------

  /** `N = int(tMax/0.25)` with `tMax = delay + duration`. */
  function BufferLength(delay: real, duration: real): int
  {
    Trunc((delay + duration) / 0.25)
  }

  /** `int((part/tMax)*N)`: `delay_ind` for the delay, `duration_ind` for
      the duration. */
  function IndexOf(part: real, tMax: real, n: int): int
    requires tMax != 0.0
  {
    Trunc(part / tMax * n as real)
  }

  /** What `inject_square_current` leaves in `Iext`: `N` zeros, then the
      three slice assignments `[0:delay_ind-1] = 0`,
      `[delay_ind:delay_ind+duration_ind-1] = amplitude` and
      `[delay_ind+duration_ind:] = 0`. `np.zeros` refuses a negative `N`
      and `delay/tMax` divides by zero when `tMax == 0`. */
  function SquareCurrent(amplitude: real, delay: real, duration: real): Result<seq<real>>
  {
    var tMax := delay + duration;
    var n := BufferLength(delay, duration);
    if n < 0 then Err(NegativeDimension)
    else if tMax == 0.0 then Err(DivisionByZero)
    else Ok(SlicedBuffer(n, IndexOf(delay, tMax, n), IndexOf(duration, tMax, n), amplitude))
  }

  /** `n` zeros after the three slice assignments for the given indices. */
  function SlicedBuffer(n: nat, delayInd: int, durationInd: int, amplitude: real): seq<real>
  {
    var onFrom := SliceIndex(delayInd, n);
    var onTo := SliceIndex(delayInd + durationInd - 1, n);
    var offFrom := SliceIndex(delayInd + durationInd, n);
    seq(n, j => if onFrom <= j < onTo && j < offFrom then amplitude else 0.0)
  }

  /** With indices inside the buffer, the amplitude covers
      `[delayInd, delayInd+durationInd-1)` and nothing else. */
  lemma SlicedBufferShape(n: nat, delayInd: int, durationInd: int, amplitude: real)
    requires 0 <= delayInd && 0 <= durationInd && delayInd + durationInd <= n
    ensures |SlicedBuffer(n, delayInd, durationInd, amplitude)| == n
    ensures forall j :: 0 <= j < n ==>
              SlicedBuffer(n, delayInd, durationInd, amplitude)[j]
              == (if delayInd <= j < delayInd + durationInd - 1 then amplitude else 0.0)
  {
  }

  /** `a[start:stop] = x` on a numpy array. */
  method AssignSlice(a: array<real>, start: int, stop: int, x: real)
    modifies a
    ensures forall j :: 0 <= j < a.Length ==>
              a[j] == (if SliceIndex(start, a.Length) <= j < SliceIndex(stop, a.Length)
                       then x else old(a[j]))
  {
    var lo, hi := SliceIndex(start, a.Length), SliceIndex(stop, a.Length);
    var end := if hi < lo then lo else hi;
    for j := lo to end
      invariant forall l :: 0 <= l < a.Length ==>
                  a[l] == (if lo <= l < j then x else old(a[l]))
    {
      a[j] := x;
    }
  }

  /** The `Iext` construction of `inject_square_current`. */
  method SquareCurrentBuffer(amplitude: real, delay: real, duration: real)
    returns (r: Result<seq<real>>)
    ensures r == SquareCurrent(amplitude, delay, duration)
  {
    var tMax := delay + duration;
    var n := BufferLength(delay, duration);
    if n < 0 {
      return Err(NegativeDimension);
    }
    var Iext := new real[n](_ => 0.0);
    if tMax == 0.0 {
      return Err(DivisionByZero);
    }
    var delayInd := IndexOf(delay, tMax, n);
    var durationInd := IndexOf(duration, tMax, n);
    AssignSlice(Iext, 0, delayInd - 1, 0.0);
    assert forall j :: 0 <= j < n ==> Iext[j] == 0.0;
    AssignSlice(Iext, delayInd, delayInd + durationInd - 1, amplitude);
    AssignSlice(Iext, delayInd + durationInd, n, 0.0);
    r := Ok(Iext[..]);
    assert Iext[..] == SlicedBuffer(n, delayInd, durationInd, amplitude);
  }

  /** The two index fractions of a non-negative pulse never add up to more
      than the whole buffer. */
  lemma PulseIndicesFit(delay: real, duration: real, tMax: real, n: nat)
    requires delay >= 0.0 && duration >= 0.0 && tMax == delay + duration > 0.0
    ensures 0 <= IndexOf(delay, tMax, n) && 0 <= IndexOf(duration, tMax, n)
    ensures IndexOf(delay, tMax, n) + IndexOf(duration, tMax, n) <= n
  {
    var f, g := delay / tMax, duration / tMax;
    assert f + g == 1.0;
    assert f >= 0.0 && g >= 0.0;
    assert f * n as real >= 0.0 && g * n as real >= 0.0;
    assert f * n as real + g * n as real == n as real by {
      assert f * n as real + g * n as real == (f + g) * n as real;
    }
  }

  /** For a pulse with non-negative delay and duration, `Iext` has
      `int(tMax/0.25)` samples, and exactly those with index in
      `[delay_ind, delay_ind+duration_ind-1)` hold the amplitude: the
      pulse is one sample shorter than `duration_ind`, and when both
      indices are 0 the last slice clears the whole buffer. */
  lemma SquareCurrentShape(amplitude: real, delay: real, duration: real)
    requires delay >= 0.0 && duration >= 0.0 && delay + duration > 0.0
    ensures var tMax, n := delay + duration, BufferLength(delay, duration);
            var delayInd, durationInd := IndexOf(delay, tMax, n), IndexOf(duration, tMax, n);
            var r := SquareCurrent(amplitude, delay, duration);
            && n >= 0 && r.Ok? && |r.value| == n
            && 0 <= delayInd && 0 <= durationInd && delayInd + durationInd <= n
            && forall j :: 0 <= j < n ==>
                 r.value[j] == (if delayInd <= j < delayInd + durationInd - 1
                                then amplitude else 0.0)
  {
    var tMax, n := delay + duration, BufferLength(delay, duration);
    assert n >= 0;
    PulseIndicesFit(delay, duration, tMax, n);
    SlicedBufferShape(n, IndexOf(delay, tMax, n), IndexOf(duration, tMax, n), amplitude);
  }

  // ---------------------------------------------------------------------
  // The model object
  // ---------------------------------------------------------------------

  /** `IZHIModel`: the parameter dictionary, the cached trace `vM` and the
      stop time `tstop` (unset until a square current is injected). */
  class IzhiModel {
    var vM: Option<seq<real>>
    var attrs: Option<Attrs>
    var tstop: Option<real>

    /** `__init__`: no cached trace, and `default_attrs` unless a
        dictionary is given. */
    constructor(given: Option<Attrs>)
      ensures vM == None && tstop == None
      ensures attrs == Some(Base(given))
    {
      vM := None;
      if given.Some? {
        attrs := given;
      } else {
        attrs := Some(DefaultAttrs);
      }
      tstop := None;
    }

    /** `set_attrs`: replaces the dictionary and keeps a cached trace. */
    method SetAttrs(a: Option<Attrs>)
      modifies this
      ensures attrs == a && vM == old(vM) && tstop == old(tstop)
    {
      attrs := a;
    }

    /** `get_membrane_potential`: a cached trace is returned as it is;
        otherwise the tag is rounded in place, the stepper runs on the
        stored current (or its own default) and a successful trace is
        cached. Without a dictionary the lookups fail. */
    method GetMembranePotential() returns (r: Result<seq<real>>)
      modifies this
      ensures tstop == old(tstop)
      ensures old(vM).Some? ==>
                r == Ok(old(vM).value) && vM == old(vM) && attrs == old(attrs)
      ensures old(vM).None? && old(attrs).None? ==>
                r == Err(MissingAttributes) && vM == None && attrs == None
      ensures old(vM).None? && old(attrs).Some? ==>
                && r == MembranePotential(old(attrs).value)
                && attrs == Some(Rounded(old(attrs).value))
                && vM == (if r.Ok? then Some(r.value) else None)
    {
      if vM.Some? {
        return Ok(vM.value);
      }
      if attrs.None? {
        return Err(MissingAttributes);
      }
      var a := attrs.value;
      var ct := RoundHalfEven(a.celltype);
      attrs := Some(a.(celltype := ct as real));
      var variant := CellVariant(ct);
      if variant.None? {
        return Err(UnknownCellType);
      }
      var I: seq<real>;
      if a.current.Some? {
        I := a.current.value;
      } else if DefaultCurrent(variant.value).Some? {
        I := DefaultCurrent(variant.value).value;
      } else {
        return Err(MissingCurrent);
      }
      r := RunCellType(ct, a.params, I);
      if r.Ok? {
        vM := Some(r.value);
      }
    }

    /** `inject_direct_current(I)`: stores `I` as `'I'`, rounds the tag and
        runs the stepper. `'I'` is removed again once the stepper has
        returned, or once no branch matched; a stepper that raises leaves it
        in place. A successful trace replaces the cached one. */
    method InjectDirectCurrent(I: seq<real>) returns (r: Result<seq<real>>)
      modifies this
      ensures tstop == old(tstop)
      ensures var a := Rounded(Base(old(attrs)));
              && r == Dispatch(RoundHalfEven(a.celltype), a.params, I)
              && (r.Ok? ==> vM == Some(r.value) && attrs == Some(a.(current := None)))
              && (r == Err(UnknownCellType) ==>
                    vM == old(vM) && attrs == Some(a.(current := None)))
              && (r.Err? && r != Err(UnknownCellType) ==>
                    vM == old(vM) && attrs == Some(a.(current := Some(I))))
    {
      var a := Base(attrs);
      var ct := RoundHalfEven(a.celltype);
      a := a.(current := Some(I), celltype := ct as real);
      attrs := Some(a);
      r := RunCellType(ct, a.params, I);
      DispatchOutcome(ct, a.params, I);
      if r.Ok? || r == Err(UnknownCellType) {
        attrs := Some(a.(current := None));
      }
      if r.Ok? {
        vM := Some(r.value);
      }
    }

    /** `inject_square_current(current)`: sets `tstop = delay + duration`,
        builds `Iext`, stores it as `'I'` (and leaves it there), rounds the
        tag and runs the stepper. A successful trace replaces the cached
        one. */
    method InjectSquareCurrent(amplitude: real, delay: real, duration: real)
      returns (r: Result<seq<real>>)
      modifies this
      ensures tstop == Some(delay + duration)
      ensures var buffer := SquareCurrent(amplitude, delay, duration);
              var a := Base(old(attrs));
              && (buffer.Err? ==>
                    r == Err(buffer.fault) && vM == old(vM) && attrs == Some(a))
              && (buffer.Ok? ==>
                    && r == Dispatch(RoundHalfEven(a.celltype), a.params, buffer.value)
                    && attrs == Some(Rounded(a).(current := Some(buffer.value)))
                    && vM == (if r.Ok? then Some(r.value) else old(vM)))
    {
      var a := Base(attrs);
      attrs := Some(a);
      tstop := Some(delay + duration);
      var buffer := SquareCurrentBuffer(amplitude, delay, duration);
      if buffer.Err? {
        return Err(buffer.fault);
      }
      var ct := RoundHalfEven(a.celltype);
      a := a.(current := Some(buffer.value), celltype := ct as real);
      attrs := Some(a);
      r := RunCellType(ct, a.params, buffer.value);
      if r.Ok? {
        vM := Some(r.value);
      }
    }
  }
}
