/** The four-parameter (2003) Izhikevich stepper `get_2003_vm` of the numba
    module. Unlike the 2007 steppers it keeps the state in two scalars `V`
    and `u`, runs the loop `N` times (not `N-1`), writes one sample per
    step after the update, clamps a spike to the fixed peak 30 and never
    rewrites an earlier sample. */
module Izhikevich2003 {
  import opened Shared

  /** The keyword parameters of `get_2003_vm`. */
  datatype Params = Params(a: real, b: real, c: real, d: real, vr: real)

  /** The fixed spike cutoff and recorded peak. */
  const Peak: real := 30.0

  /** Everything one loop iteration computes from the state it reads. */
  datatype Update = Update(vRaw: real, uRaw: real, fired: bool, sample: real, next: State)

  /** One pass of the loop body. The recovery update reads the voltage that
      was just updated. */
  function Step(p: Params, s: State, current: real): Update
  {
    var vRaw := s.v + Tau * (0.04 * s.v * s.v + 5.0 * s.v + 140.0 - s.u + current);
    var uRaw := s.u + Tau * p.a * (p.b * vRaw - s.u);
    var fired := vRaw > Peak;
    Update(vRaw, uRaw, fired, if fired then Peak else vRaw,
           if fired then State(p.c, uRaw + p.d) else State(vRaw, uRaw))
  }

  /** `V = vr` and `u = b*vr` before the loop. */
  function InitialState(p: Params): State { State(p.vr, p.b * p.vr) }

  /** The state after the first `i` iterations. */
  function StateAfter(p: Params, I: seq<real>, i: nat): State
    requires i <= |I|
  {
    if i == 0 then InitialState(p)
    else Step(p, StateAfter(p, I, i - 1), I[i - 1]).next
  }

  /** Iteration i of the run. */
  function UpdateAt(p: Params, I: seq<real>, i: nat): Update
    requires i < |I|
  {
    Step(p, StateAfter(p, I, i), I[i])
  }

  /** The returned array `vv`. */
  function Trace(p: Params, I: seq<real>): (t: seq<real>)
    ensures |t| == |I|
  {
    seq(|I|, i requires 0 <= i < |I| => UpdateAt(p, I, i).sample)
  }

  /** The arithmetic of the voltage update, on the scalars `V`, `u`. */
  lemma VoltageFrom(p: Params, s: State, current: real, v0: real, u0: real)
    requires s == State(v0, u0)
    ensures Step(p, s, current).vRaw
            == v0 + Tau * (0.04 * v0 * v0 + 5.0 * v0 + 140.0 - u0 + current)
  {
  }

  /** The arithmetic of the recovery update, once `V` holds `vNew`. */
  lemma RecoveryFrom(p: Params, s: State, current: real, vNew: real, u0: real)
    requires s.u == u0 && vNew == Step(p, s, current).vRaw
    ensures Step(p, s, current).uRaw == u0 + Tau * p.a * (p.b * vNew - u0)
  {
  }

  /** `get_2003_vm`. The `times` argument is accepted and never read; the
      recovery samples go into `UU`, which is not returned. */
  method Vm2003(I: seq<real>, times: seq<real>, p: Params) returns (r: seq<real>)
    ensures r == Trace(p, I)
  {
    var u := p.b * p.vr;
    var V := p.vr;
    var N := |I|;
    var vv := new real[N](_ => 0.0);
    var UU := new real[N](_ => 0.0);
    for i := 0 to N
      invariant State(V, u) == StateAfter(p, I, i)
      invariant forall j :: 0 <= j < i ==> vv[j] == UpdateAt(p, I, j).sample
    {
      ghost var up := Step(p, State(V, u), I[i]);
      VoltageFrom(p, State(V, u), I[i], V, u);
      V := V + Tau * (0.04 * V * V + 5.0 * V + 140.0 - u + I[i]);
      RecoveryFrom(p, StateAfter(p, I, i), I[i], V, u);
      u := u + Tau * p.a * (p.b * V - u);
      if V > 30.0 {
        vv[i] := 30.0;
        V := p.c;
        u := u + p.d;
      } else {
        vv[i] := V;
      }
      UU[i] := u;
    }
    r := vv[..];
    assert r == Trace(p, I);
  }

  // ---------------------------------------------------------------------
  // Properties of a run
  // ---------------------------------------------------------------------

  /** No returned sample exceeds 30; a spike step records exactly 30, and
      any other step records its updated voltage, which is at most 30. */
  lemma SampleClamp(p: Params, I: seq<real>, i: nat)
    requires i < |I|
    ensures Trace(p, I)[i] <= Peak
    ensures UpdateAt(p, I, i).fired ==> Trace(p, I)[i] == Peak
    ensures !UpdateAt(p, I, i).fired ==> Trace(p, I)[i] == UpdateAt(p, I, i).vRaw
    ensures Trace(p, I)[i] < Peak ==> !UpdateAt(p, I, i).fired
  {
  }

  /** After a spike `V` is reset to `c` and the recovery, already updated
      with the new voltage, is increased by `d`. */
  lemma ResetAfterSpike(p: Params, I: seq<real>, i: nat)
    requires i < |I| && UpdateAt(p, I, i).fired
    ensures StateAfter(p, I, i + 1) == State(p.c, UpdateAt(p, I, i).uRaw + p.d)
  {
  }

  /** The recovery update uses the already-updated voltage, not the one
      the iteration started from. */
  lemma RecoveryUsesNewVoltage(p: Params, s: State, current: real)
    ensures Step(p, s, current).uRaw
            == s.u + Tau * p.a * (p.b * Step(p, s, current).vRaw - s.u)
  {
  }

  /** The loop runs N times: even the first sample is the result of an
      update of the initial state (`V = vr`, `u = b*vr`), not `vr` itself. */
  lemma FirstSampleIsUpdated(p: Params, I: seq<real>)
    requires |I| >= 1
    ensures StateAfter(p, I, 0) == State(p.vr, p.b * p.vr)
    ensures Trace(p, I)[0] == Step(p, State(p.vr, p.b * p.vr), I[0]).sample
  {
  }
}
