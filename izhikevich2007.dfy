/** The five-parameter (2007 book) Izhikevich steppers of the numba module:
    `get_vm_one_two_three`, `get_vm_four`, `get_vm_five`, `get_vm_six` and
    `get_vm_seven`.

    Each stepper pre-allocates `v = vr*ones(N)` and `u = zeros(N)` with
    N = |I| and runs `for i in range(N-1)`: a forward-Euler voltage update,
    a variant-specific recovery update, and, when the variant's threshold is
    crossed, an in-place reset that overwrites `v[i]` with a peak marker,
    `v[i+1]` with the reset voltage and adjusts `u[i+1]`.

    The reference semantics below describes the same computation as a pure
    state machine: `StateAt(i)` is the state the loop reads at iteration i,
    `Iterate` is one iteration, and the returned trace holds the peak marker
    at every firing iteration and the state voltage everywhere else. Each
    stepper method is proved to return exactly that trace. */
module Izhikevich2007 {
  import opened Shared

  /** The keyword parameters shared by the five steppers. */
  datatype Params = Params(C: real, a: real, b: real, c: real, d: real,
                           k: real, vPeak: real, vr: real, vt: real)

  /** Which recovery update, threshold and reset a stepper uses. */
  datatype Variant = Types123 | Type4 | Type5 | Type6 | Type7

  /** Everything one loop iteration computes from the state it reads. */
  datatype Iteration = Iteration(vRaw: real, uRaw: real, fired: bool,
                                 marker: real, next: State)

  // ---------------------------------------------------------------------
  // One iteration
  // ---------------------------------------------------------------------

  function Cube(x: real): real { x * x * x }

  /** Forward-Euler step of the quadratic voltage equation (8.5). */
  function VoltageUpdate(p: Params, s: State, current: real): real
    requires p.C != 0.0
  {
    s.v + Tau * (p.k * (s.v - p.vr) * (s.v - p.vt) - s.u + current) / p.C
  }

  /** Type 6 replaces the supplied `b` by one chosen from the new voltage. */
  function SwitchedB6(vRaw: real): real { if vRaw > -65.0 then 0.0 else 15.0 }

  /** Type 7 does the same with another pair of values. */
  function SwitchedB7(vRaw: real): real { if vRaw > -65.0 then 2.0 else 10.0 }

  /** The recovery update (8.6) of each variant. It reads the voltage `s.v`
      the iteration started from; types 5, 6 and 7 also inspect the freshly
      computed voltage `vRaw` to pick a branch. */
  function RecoveryUpdate(x: Variant, p: Params, s: State, vRaw: real): real
  {
    match x
    case Types123 => s.u + Tau * p.a * (p.b * (s.v - p.vr) - s.u)
    case Type4 => s.u + Tau * p.a * (p.b * (s.v - p.vr) - s.u)
    case Type5 =>
      if vRaw < p.d then s.u + Tau * p.a * (0.0 - s.u)
      else s.u + Tau * p.a * (0.025 * Cube(s.v - p.d) - s.u)
    case Type6 => s.u + Tau * p.a * (SwitchedB6(vRaw) * (s.v - p.vr) - s.u)
    case Type7 => s.u + Tau * p.a * (SwitchedB7(vRaw) * (s.v - p.vr) - s.u)
  }

  /** The spike test, on the new voltage and the new (pre-reset) recovery. */
  predicate Fires(x: Variant, p: Params, vRaw: real, uRaw: real)
  {
    match x
    case Type4 => vRaw > p.vPeak - 0.1 * uRaw
    case Type6 => vRaw > p.vPeak + 0.1 * uRaw
    case _ => vRaw >= p.vPeak
  }

  /** The value written over `v[i]` when iteration i fires. */
  function PeakMarker(x: Variant, p: Params, uRaw: real): real
  {
    match x
    case Type4 => p.vPeak - 0.1 * uRaw
    case Type6 => p.vPeak + 0.1 * uRaw
    case _ => p.vPeak
  }

  /** The state written into slot i+1 when iteration i fires; `s` is the
      state the iteration started from (the type-4 cap tests `u[i] + d`). */
  function ResetState(x: Variant, p: Params, s: State, uRaw: real): State
  {
    match x
    case Types123 => State(p.c, uRaw + p.d)
    case Type4 => State(p.c + 0.04 * uRaw, if s.u + p.d < 670.0 then uRaw + p.d else 670.0)
    case Type5 => State(p.c, uRaw)
    case Type6 => State(p.c - 0.1 * uRaw, uRaw + p.d)
    case Type7 => State(p.c, uRaw + p.d)
  }

  /** One pass of the loop body from state `s` with input `current`. */
  function Iterate(x: Variant, p: Params, s: State, current: real): Iteration
    requires p.C != 0.0
  {
    var vRaw := VoltageUpdate(p, s, current);
    var uRaw := RecoveryUpdate(x, p, s, vRaw);
    var fired := Fires(x, p, vRaw, uRaw);
    Iteration(vRaw, uRaw, fired, PeakMarker(x, p, uRaw),
              if fired then ResetState(x, p, s, uRaw) else State(vRaw, uRaw))
  }

  // ---------------------------------------------------------------------
  // The whole run
  // ---------------------------------------------------------------------

  /** Without a division by zero the loop runs: it divides by C as soon as
      there are two samples. */
  predicate WellPosed(p: Params, I: seq<real>) { |I| >= 2 ==> p.C != 0.0 }

  /** Types 4, 5 and 6 assign `v[0] = vr` before the loop. */
  predicate AssignsFirstSample(x: Variant) { x == Type4 || x == Type5 || x == Type6 }

  /** The state (`v[i]`, `u[i]`) that iteration i reads. */
  function StateAt(x: Variant, p: Params, I: seq<real>, i: nat): State
    requires WellPosed(p, I) && i < |I|
    decreases i
  {
    if i == 0 then State(p.vr, 0.0)
    else Iterate(x, p, StateAt(x, p, I, i - 1), I[i - 1]).next
  }

  /** Iteration i of the run (only i < N-1 are executed). */
  function IterationAt(x: Variant, p: Params, I: seq<real>, i: nat): Iteration
    requires WellPosed(p, I) && i + 1 < |I|
  {
    Iterate(x, p, StateAt(x, p, I, i), I[i])
  }

  /** Whether iteration i is a spike. */
  predicate FiresAt(x: Variant, p: Params, I: seq<real>, i: nat)
    requires WellPosed(p, I) && i + 1 < |I|
  {
    IterationAt(x, p, I, i).fired
  }

  /** The returned `v[i]`: the peak marker if iteration i fired, otherwise
      the state voltage (the last slot is never overwritten). */
  function Sample(x: Variant, p: Params, I: seq<real>, i: nat): real
    requires WellPosed(p, I) && i < |I|
  {
    if i + 1 < |I| && FiresAt(x, p, I, i) then IterationAt(x, p, I, i).marker
    else StateAt(x, p, I, i).v
  }

  /** The returned voltage array. */
  function Trace(x: Variant, p: Params, I: seq<real>): (t: seq<real>)
    requires WellPosed(p, I)
    ensures |t| == |I|
  {
    seq(|I|, i requires 0 <= i < |I| => Sample(x, p, I, i))
  }

  /** The outcome of calling stepper `x` on `I`. */
  function Run(x: Variant, p: Params, I: seq<real>): Result<seq<real>>
  {
    if |I| == 0 && AssignsFirstSample(x) then Err(IndexOutOfRange)
    else if !WellPosed(p, I) then Err(DivisionByZero)
    else Ok(Trace(x, p, I))
  }

  // ---------------------------------------------------------------------
  // Properties of a run
  // ---------------------------------------------------------------------

  function Max(x: real, y: real): real { if x >= y then x else y }

  /** A run fails exactly when types 4-6 get no samples (`v[0] = vr` is out
      of range) or when C is zero and the loop divides by it; otherwise it
      returns one voltage per input current. */
  lemma RunOutcome(x: Variant, p: Params, I: seq<real>)
    ensures Run(x, p, I).Err? <==>
              (|I| == 0 && AssignsFirstSample(x)) || (|I| >= 2 && p.C == 0.0)
    ensures Run(x, p, I).Err? && |I| == 0 ==> Run(x, p, I).fault == IndexOutOfRange
    ensures Run(x, p, I).Err? && |I| != 0 ==> Run(x, p, I).fault == DivisionByZero
    ensures Run(x, p, I).Ok? ==> |Run(x, p, I).value| == |I|
  {
  }

  /** `v[0]` still holds `vr` unless iteration 0 fires. */
  lemma InitialSample(x: Variant, p: Params, I: seq<real>)
    requires WellPosed(p, I) && |I| >= 1
    ensures !(|I| >= 2 && FiresAt(x, p, I, 0)) ==> Trace(x, p, I)[0] == p.vr
    ensures |I| >= 2 && FiresAt(x, p, I, 0) ==>
              Trace(x, p, I)[0] == IterationAt(x, p, I, 0).marker
  {
  }

  /** Iteration i is the last to write `v[i]`: when it fires, the returned
      sample is the variant's peak marker, computed from the pre-reset
      recovery `u[i+1]`. */
  lemma PeakMarkerIsFinal(x: Variant, p: Params, I: seq<real>, i: nat)
    requires WellPosed(p, I) && i + 1 < |I| && FiresAt(x, p, I, i)
    ensures var uRaw := IterationAt(x, p, I, i).uRaw;
            Trace(x, p, I)[i] == (if x == Type4 then p.vPeak - 0.1 * uRaw
                                  else if x == Type6 then p.vPeak + 0.1 * uRaw
                                  else p.vPeak)
  {
  }

  /** A sample that no iteration overwrites (no spike there, or the last
      one) is the state voltage itself. */
  lemma UnfiredSampleIsState(x: Variant, p: Params, I: seq<real>, i: nat)
    requires WellPosed(p, I) && i < |I|
    requires i + 1 == |I| || !FiresAt(x, p, I, i)
    ensures Trace(x, p, I)[i] == StateAt(x, p, I, i).v
  {
  }

  /** After firing iteration i, slot i+1 holds the reset voltage and the
      recovery is bumped by `d` (types 1-3, 6, 7) or left alone (type 5);
      type 4 has its own cap, see `Type4RecoveryCap`. The returned `v[i+1]`
      is that reset voltage unless iteration i+1 fires too. */
  lemma ResetAfterFiring(x: Variant, p: Params, I: seq<real>, i: nat)
    requires WellPosed(p, I) && i + 1 < |I| && FiresAt(x, p, I, i)
    ensures var uRaw := IterationAt(x, p, I, i).uRaw;
            StateAt(x, p, I, i + 1).v == (if x == Type4 then p.c + 0.04 * uRaw
                                          else if x == Type6 then p.c - 0.1 * uRaw
                                          else p.c)
    ensures var uRaw := IterationAt(x, p, I, i).uRaw;
            x != Type4 ==>
              StateAt(x, p, I, i + 1).u == (if x == Type5 then uRaw else uRaw + p.d)
    ensures i + 2 == |I| || !FiresAt(x, p, I, i + 1) ==>
              Trace(x, p, I)[i + 1] == StateAt(x, p, I, i + 1).v
  {
  }

  /** The type-4 cap: the test is on the old recovery `u[i] + d`, and the
      capped value is exactly 670. */
  lemma Type4RecoveryCap(p: Params, I: seq<real>, i: nat)
    requires WellPosed(p, I) && i + 1 < |I| && FiresAt(Type4, p, I, i)
    ensures StateAt(Type4, p, I, i).u + p.d < 670.0 ==>
              StateAt(Type4, p, I, i + 1).u == IterationAt(Type4, p, I, i).uRaw + p.d
    ensures StateAt(Type4, p, I, i).u + p.d >= 670.0 ==>
              StateAt(Type4, p, I, i + 1).u == 670.0
  {
  }

  /** Because the cap tests `u[i] + d` and not the new `u[i+1] + d`, a
      type-4 run can leave the recovery above 670: in this three-sample
      run iteration 1 fires from `u[1] = 0` and the reset stores 1005. */
  lemma Type4CapIsNotABound()
    ensures var p := Params(1.0, 4.0, 1.0, 0.0, 5.0, 0.0, 1050.0, 0.0, 0.0);
            var I := [4000.0, 0.0, 0.0];
            && WellPosed(p, I)
            && FiresAt(Type4, p, I, 1)
            && StateAt(Type4, p, I, 1).u + p.d < 670.0
            && StateAt(Type4, p, I, 2).u == 1005.0
  {
  }

  /** The type-5 recovery relaxes `u` toward 0 while the new voltage is
      below `d` and uses the cubic term of the old voltage otherwise. */
  lemma Type5RecoveryBranches(p: Params, s: State, current: real)
    requires p.C != 0.0
    ensures var it := Iterate(Type5, p, s, current);
            it.uRaw == (if it.vRaw < p.d then s.u + Tau * p.a * (0.0 - s.u)
                        else s.u + Tau * p.a * (0.025 * Cube(s.v - p.d) - s.u))
  {
  }

  /** The type-6 recovery uses `b = 0` above -65 mV of new voltage and
      `b = 15` otherwise, applied to the old voltage. */
  lemma Type6RecoveryBranches(p: Params, s: State, current: real)
    requires p.C != 0.0
    ensures var it := Iterate(Type6, p, s, current);
            it.uRaw == s.u + Tau * p.a * ((if it.vRaw > -65.0 then 0.0 else 15.0) * (s.v - p.vr) - s.u)
  {
  }

  /** The type-7 recovery does the same with `b = 2` and `b = 10`. */
  lemma Type7RecoveryBranches(p: Params, s: State, current: real)
    requires p.C != 0.0
    ensures var it := Iterate(Type7, p, s, current);
            it.uRaw == s.u + Tau * p.a * ((if it.vRaw > -65.0 then 2.0 else 10.0) * (s.v - p.vr) - s.u)
  {
  }

  /** Types 6 and 7 never use the supplied `b`: one iteration ... */
  lemma IterateIgnoresB(x: Variant, p: Params, b: real, s: State, current: real)
    requires x == Type6 || x == Type7
    requires p.C != 0.0
    ensures Iterate(x, p, s, current) == Iterate(x, p.(b := b), s, current)
  {
    var q := p.(b := b);
    assert VoltageUpdate(q, s, current) == VoltageUpdate(p, s, current);
  }

  /** ... and so the whole state sequence ... */
  lemma {:induction false} StateIgnoresB(x: Variant, p: Params, b: real, I: seq<real>, i: nat)
    requires x == Type6 || x == Type7
    requires WellPosed(p, I) && i < |I|
    ensures StateAt(x, p, I, i) == StateAt(x, p.(b := b), I, i)
  {
    if i > 0 {
      StateIgnoresB(x, p, b, I, i - 1);
      IterateIgnoresB(x, p, b, StateAt(x, p, I, i - 1), I[i - 1]);
    }
  }

  /** ... and the returned trace are the same for every `b`. */
  lemma TraceIgnoresB(x: Variant, p: Params, b: real, I: seq<real>)
    requires x == Type6 || x == Type7
    requires WellPosed(p, I)
    ensures Trace(x, p, I) == Trace(x, p.(b := b), I)
  {
    forall i | 0 <= i < |I|
      ensures Sample(x, p, I, i) == Sample(x, p.(b := b), I, i)
    {
      StateIgnoresB(x, p, b, I, i);
      if i + 1 < |I| {
        IterateIgnoresB(x, p, b, StateAt(x, p, I, i), I[i]);
      }
    }
  }

  /** The integrator is causal: the state at step i depends only on the
      currents before i ... */
  lemma {:induction false} StateIsCausal(x: Variant, p: Params, I: seq<real>, m: nat, i: nat)
    requires WellPosed(p, I) && i < m <= |I|
    ensures WellPosed(p, I[..m]) && StateAt(x, p, I[..m], i) == StateAt(x, p, I, i)
  {
    if i > 0 {
      StateIsCausal(x, p, I, m, i - 1);
      assert I[..m][i - 1] == I[i - 1];
    }
  }

  /** ... so running on a prefix of the input gives a prefix of the trace,
      except that the prefix's last sample is never overwritten. */
  lemma TraceIsCausal(x: Variant, p: Params, I: seq<real>, m: nat)
    requires WellPosed(p, I) && 1 <= m <= |I|
    ensures WellPosed(p, I[..m])
    ensures Trace(x, p, I[..m])[..m - 1] == Trace(x, p, I)[..m - 1]
    ensures Trace(x, p, I[..m])[m - 1] == StateAt(x, p, I, m - 1).v
  {
    StateIsCausal(x, p, I, m, m - 1);
    forall i | 0 <= i < m - 1
      ensures Sample(x, p, I[..m], i) == Sample(x, p, I, i)
    {
      StateIsCausal(x, p, I, m, i);
      assert I[..m][i] == I[i];
    }
  }

  /** With the `>= vPeak` test (types 1-3, 5, 7) no returned sample exceeds
      the largest of `vPeak`, `c` and `vr`. */
  lemma TraceBounded(x: Variant, p: Params, I: seq<real>, i: nat)
    requires x == Types123 || x == Type5 || x == Type7
    requires WellPosed(p, I) && i < |I|
    ensures Trace(x, p, I)[i] <= Max(p.vPeak, Max(p.c, p.vr))
  {
    if !(i + 1 < |I| && FiresAt(x, p, I, i)) && i > 0 {
      var it := Iterate(x, p, StateAt(x, p, I, i - 1), I[i - 1]);
      assert StateAt(x, p, I, i) == it.next;
      assert it.next.v == (if it.fired then p.c else it.vRaw);
    }
  }

  /** The loop body's arithmetic, written out on the values `vi`, `ui`
      read from the arrays. */
  lemma IterateFrom(x: Variant, p: Params, s: State, current: real, vi: real, ui: real)
    requires p.C != 0.0 && s == State(vi, ui)
    ensures Iterate(x, p, s, current).vRaw
            == vi + Tau * (p.k * (vi - p.vr) * (vi - p.vt) - ui + current) / p.C
    ensures x == Types123 || x == Type4 ==>
              Iterate(x, p, s, current).uRaw == ui + Tau * p.a * (p.b * (vi - p.vr) - ui)
    ensures x == Type5 ==>
              Iterate(x, p, s, current).uRaw
              == if Iterate(x, p, s, current).vRaw < p.d then ui + Tau * p.a * (0.0 - ui)
                 else ui + Tau * p.a * (0.025 * Cube(vi - p.d) - ui)
  {
  }

  /** The same for types 6 and 7, once the local `b` has been switched. */
  lemma SwitchedRecoveryFrom(x: Variant, p: Params, s: State, current: real,
                             vi: real, ui: real, b: real)
    requires p.C != 0.0 && s == State(vi, ui)
    requires x == Type6 ==> b == SwitchedB6(Iterate(x, p, s, current).vRaw)
    requires x == Type7 ==> b == SwitchedB7(Iterate(x, p, s, current).vRaw)
    requires x == Type6 || x == Type7
    ensures Iterate(x, p, s, current).uRaw == ui + Tau * p.a * (b * (vi - p.vr) - ui)
  {
  }

  // ---------------------------------------------------------------------
  // The steppers
  // ---------------------------------------------------------------------

  /** `get_vm_one_two_three`: regular spiking, bursting and chattering. */
  method VmOneTwoThree(p: Params, I: seq<real>) returns (r: Result<seq<real>>)
    ensures r == Run(Types123, p, I)
  {
    var N := |I|;
    var v := new real[N](_ => p.vr);
    var u := new real[N](_ => 0.0);
    if N == 0 {
      assert v[..] == Trace(Types123, p, I);
      return Ok(v[..]);  // range(-1) is empty
    }
    if N >= 2 && p.C == 0.0 {
      return Err(DivisionByZero);  // raised by the first voltage update
    }
    var i := 0;
    while i < N - 1
      invariant 0 <= i < N
      invariant forall j :: 0 <= j < i ==> v[j] == Sample(Types123, p, I, j)
      invariant State(v[i], u[i]) == StateAt(Types123, p, I, i)
    {
      // v[i] and u[i] are read before anything overwrites them
      var vi, ui := v[i], u[i];
      ghost var it := Iterate(Types123, p, State(vi, ui), I[i]);
      IterateFrom(Types123, p, State(vi, ui), I[i], vi, ui);
      v[i+1] := vi + Tau * (p.k * (vi - p.vr) * (vi - p.vt) - ui + I[i]) / p.C;
      u[i+1] := ui + Tau * p.a * (p.b * (vi - p.vr) - ui);
      if v[i+1] >= p.vPeak {
        v[i] := p.vPeak;
        v[i+1] := p.c;
        u[i+1] := u[i+1] + p.d;
      }
      i := i + 1;
    }
    r := Ok(v[..]);
    assert v[..] == Trace(Types123, p, I);
  }

  /** `get_vm_four`: low-threshold spiking; the recovery reset is capped
      at 670 by a test on `u[i] + d`. */
  method VmFour(p: Params, I: seq<real>) returns (r: Result<seq<real>>)
    ensures r == Run(Type4, p, I)
  {
    var N := |I|;
    var v := new real[N](_ => p.vr);
    var u := new real[N](_ => 0.0);
    if N == 0 {
      return Err(IndexOutOfRange);  // v[0] = vr
    }
    v[0] := p.vr;
    if N >= 2 && p.C == 0.0 {
      return Err(DivisionByZero);  // raised by the first voltage update
    }
    var i := 0;
    while i < N - 1
      invariant 0 <= i < N
      invariant forall j :: 0 <= j < i ==> v[j] == Sample(Type4, p, I, j)
      invariant State(v[i], u[i]) == StateAt(Type4, p, I, i)
    {
      // v[i] and u[i] are read before anything overwrites them
      var vi, ui := v[i], u[i];
      ghost var it := Iterate(Type4, p, State(vi, ui), I[i]);
      IterateFrom(Type4, p, State(vi, ui), I[i], vi, ui);
      v[i+1] := vi + Tau * (p.k * (vi - p.vr) * (vi - p.vt) - ui + I[i]) / p.C;
      u[i+1] := ui + Tau * p.a * (p.b * (vi - p.vr) - ui);
      if v[i+1] > p.vPeak - 0.1 * u[i+1] {
        v[i] := p.vPeak - 0.1 * u[i+1];
        v[i+1] := p.c + 0.04 * u[i+1];
        if ui + p.d < 670.0 {
          u[i+1] := u[i+1] + p.d;
        } else {
          u[i+1] := 670.0;
        }
      }
      i := i + 1;
    }
    r := Ok(v[..]);
    assert v[..] == Trace(Type4, p, I);
  }

  /** `get_vm_five`: fast spiking; the recovery relaxes to 0 below `d` and
      follows a cubic term above it, and a spike does not reset it. */
  method VmFive(p: Params, I: seq<real>) returns (r: Result<seq<real>>)
    ensures r == Run(Type5, p, I)
  {
    var N := |I|;
    var v := new real[N](_ => p.vr);
    var u := new real[N](_ => 0.0);
    if N == 0 {
      return Err(IndexOutOfRange);  // v[0] = vr
    }
    v[0] := p.vr;
    if N >= 2 && p.C == 0.0 {
      return Err(DivisionByZero);  // raised by the first voltage update
    }
    var i := 0;
    while i < N - 1
      invariant 0 <= i < N
      invariant forall j :: 0 <= j < i ==> v[j] == Sample(Type5, p, I, j)
      invariant State(v[i], u[i]) == StateAt(Type5, p, I, i)
    {
      // v[i] and u[i] are read before anything overwrites them
      var vi, ui := v[i], u[i];
      ghost var it := Iterate(Type5, p, State(vi, ui), I[i]);
      IterateFrom(Type5, p, State(vi, ui), I[i], vi, ui);
      v[i+1] := vi + Tau * (p.k * (vi - p.vr) * (vi - p.vt) - ui + I[i]) / p.C;
      if v[i+1] < p.d {
        u[i+1] := ui + Tau * p.a * (0.0 - ui);
      } else {
        u[i+1] := ui + Tau * p.a * (0.025 * Cube(vi - p.d) - ui);
      }
      if v[i+1] >= p.vPeak {
        v[i] := p.vPeak;
        v[i+1] := p.c;
      }
      i := i + 1;
    }
    r := Ok(v[..]);
    assert v[..] == Trace(Type5, p, I);
  }

  /** `get_vm_six`: thalamocortical; `b` is 0 above -65 mV and 15 below,
      whatever `b` was supplied. */
  method VmSix(I: seq<real>, p: Params) returns (r: Result<seq<real>>)
    ensures r == Run(Type6, p, I)
  {
    var N := |I|;
    var b := p.b;  // overwritten before its first use
    var v := new real[N](_ => p.vr);
    var u := new real[N](_ => 0.0);
    if N == 0 {
      return Err(IndexOutOfRange);  // v[0] = vr
    }
    v[0] := p.vr;
    if N >= 2 && p.C == 0.0 {
      return Err(DivisionByZero);  // raised by the first voltage update
    }
    var i := 0;
    while i < N - 1
      invariant 0 <= i < N
      invariant forall j :: 0 <= j < i ==> v[j] == Sample(Type6, p, I, j)
      invariant State(v[i], u[i]) == StateAt(Type6, p, I, i)
    {
      // v[i] and u[i] are read before anything overwrites them
      var vi, ui := v[i], u[i];
      ghost var it := Iterate(Type6, p, State(vi, ui), I[i]);
      IterateFrom(Type6, p, State(vi, ui), I[i], vi, ui);
      v[i+1] := vi + Tau * (p.k * (vi - p.vr) * (vi - p.vt) - ui + I[i]) / p.C;
      if v[i+1] > -65.0 {
        b := 0.0;
      } else {
        b := 15.0;
      }
      SwitchedRecoveryFrom(Type6, p, State(vi, ui), I[i], vi, ui, b);
      u[i+1] := ui + Tau * p.a * (b * (vi - p.vr) - ui);
      if v[i+1] > p.vPeak + 0.1 * u[i+1] {
        v[i] := p.vPeak + 0.1 * u[i+1];
        v[i+1] := p.c - 0.1 * u[i+1];
        u[i+1] := u[i+1] + p.d;
      }
      i := i + 1;
    }
    r := Ok(v[..]);
    assert v[..] == Trace(Type6, p, I);
  }

  /** `get_vm_seven`: reticular thalamic; `b` is 2 above -65 mV and 10
      below, whatever `b` was supplied. */
  method VmSeven(p: Params, I: seq<real>) returns (r: Result<seq<real>>)
    ensures r == Run(Type7, p, I)
  {
    var N := |I|;
    var b := p.b;  // overwritten before its first use
    var v := new real[N](_ => p.vr);
    var u := new real[N](_ => 0.0);
    if N == 0 {
      assert v[..] == Trace(Type7, p, I);
      return Ok(v[..]);  // range(-1) is empty
    }
    if N >= 2 && p.C == 0.0 {
      return Err(DivisionByZero);  // raised by the first voltage update
    }
    var i := 0;
    while i < N - 1
      invariant 0 <= i < N
      invariant forall j :: 0 <= j < i ==> v[j] == Sample(Type7, p, I, j)
      invariant State(v[i], u[i]) == StateAt(Type7, p, I, i)
    {
      // v[i] and u[i] are read before anything overwrites them
      var vi, ui := v[i], u[i];
      ghost var it := Iterate(Type7, p, State(vi, ui), I[i]);
      IterateFrom(Type7, p, State(vi, ui), I[i], vi, ui);
      v[i+1] := vi + Tau * (p.k * (vi - p.vr) * (vi - p.vt) - ui + I[i]) / p.C;
      if v[i+1] > -65.0 {
        b := 2.0;
      } else {
        b := 10.0;
      }
      SwitchedRecoveryFrom(Type7, p, State(vi, ui), I[i], vi, ui, b);
      u[i+1] := ui + Tau * p.a * (b * (vi - p.vr) - ui);
      if v[i+1] >= p.vPeak {
        v[i] := p.vPeak;
        v[i+1] := p.c;
        u[i+1] := u[i+1] + p.d;
      }
      i := i + 1;
    }
    r := Ok(v[..]);
    assert v[..] == Trace(Type7, p, I);
  }
}
