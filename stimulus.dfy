/** The current-waveform builders of the PyNN figure script: `step`,
    `pulse` and `ramp` build the `(times, amps)` knot pairs that are handed
    to a step current source, and `run_simulation` picks the initial
    recovery when none is given.

    A step current source holds each amplitude from its knot time until the
    next knot. `Held` states that reading independently of the builders.
    The lemmas below give the held current of `step` at every time, of
    `pulse` on `[0, tStop)` for separated pulses, and of `ramp` between
    grid points. */
module Stimulus {
  import opened Shared
  import Izhikevich2003

  /** A `(times, amps)` pair. */
  datatype Waveform = Waveform(times: seq<real>, amps: seq<real>)

  predicate Sorted(s: seq<real>)
  {
    forall i, j :: 0 <= i < j < |s| ==> s[i] <= s[j]
  }

  /** The current a hold-last-value source delivers at time `t`: the
      amplitude of the last knot at or before `t`, and 0 before the first. */
  function Held(times: seq<real>, amps: seq<real>, t: real): real
    requires |times| == |amps|
    decreases |times|
  {
    if |times| == 0 then 0.0
    else if times[|times| - 1] <= t then amps[|amps| - 1]
    else Held(times[..|times| - 1], amps[..|amps| - 1], t)
  }

  /** If knot m is at or before `t` and every later knot is after `t`, the
      held value is knot m's amplitude. */
  lemma {:induction false} HeldAtLastKnot(times: seq<real>, amps: seq<real>, t: real, m: nat)
    requires |times| == |amps| && m < |times| && times[m] <= t
    requires forall l :: m < l < |times| ==> times[l] > t
    ensures Held(times, amps, t) == amps[m]
  {
    var n := |times| - 1;
    if m < n {
      var ts, am := times[..n], amps[..n];
      assert forall l :: m < l < |ts| ==> ts[l] == times[l];
      HeldAtLastKnot(ts, am, t, m);
    }
  }

  // ---------------------------------------------------------------------
  // step
  // ---------------------------------------------------------------------

  /** `step(amplitude, t_stop)`: off until a tenth of the run, then on. */
  function Step(amplitude: real, tStop: real): (w: Waveform)
    ensures |w.times| == |w.amps| == 3
    ensures tStop >= 0.0 ==> Sorted(w.times)
    ensures tStop > 0.0 ==>
              forall j :: 0 <= j < 3 ==>
                w.amps[j] == (if w.times[j] < tStop / 10.0 then 0.0 else amplitude)
  {
    Waveform([0.0, tStop / 10.0, tStop], [0.0, amplitude, amplitude])
  }

  /** The source built from `step` delivers 0 before `t_stop/10` and the
      amplitude from then on. */
  lemma StepHeld(amplitude: real, tStop: real, t: real)
    requires tStop > 0.0
    ensures var w := Step(amplitude, tStop);
            Held(w.times, w.amps, t) == (if t < tStop / 10.0 then 0.0 else amplitude)
  {
    var w := Step(amplitude, tStop);
    if t < 0.0 {
      // every knot is after t: the source has not started
      assert w.times[..2][..1] == [0.0] && w.amps[..2][..1] == [0.0];
      assert Held(w.times[..2], w.amps[..2], t) == Held([0.0], [0.0], t) == 0.0;
    } else if t < tStop / 10.0 {
      HeldAtLastKnot(w.times, w.amps, t, 0);
    } else if t < tStop {
      HeldAtLastKnot(w.times, w.amps, t, 1);
    } else {
      HeldAtLastKnot(w.times, w.amps, t, 2);
    }
  }

  // ---------------------------------------------------------------------
  // pulse
  // ---------------------------------------------------------------------

  /** Where `pulse` puts its knots: a baseline knot at 0, an
      amplitude/baseline pair at each onset and its end, and a final
      baseline knot at `tStop`. */
  predicate PulseLayout(w: Waveform, amplitude: real, onsets: seq<real>, width: real,
                        tStop: real, baseline: real)
  {
    && |w.times| == |w.amps| == 2 + 2 * |onsets|
    && w.times[0] == 0.0 && w.amps[0] == baseline
    && (forall k :: 0 <= k < |onsets| ==>
          && w.times[2 * k + 1] == onsets[k] && w.amps[2 * k + 1] == amplitude
          && w.times[2 * k + 2] == onsets[k] + width && w.amps[2 * k + 2] == baseline)
    && w.times[1 + 2 * |onsets|] == tStop && w.amps[1 + 2 * |onsets|] == baseline
  }

  /** `pulse(amplitude, onsets, width, t_stop, baseline)`. */
  method Pulse(amplitude: real, onsets: seq<real>, width: real, tStop: real, baseline: real)
    returns (w: Waveform)
    ensures PulseLayout(w, amplitude, onsets, width, tStop, baseline)
    ensures onsets == [] ==> w == Waveform([0.0, tStop], [baseline, baseline])
  {
    var times := [0.0];
    var amps := [baseline];
    for n := 0 to |onsets|
      invariant |times| == |amps| == 1 + 2 * n
      invariant times[0] == 0.0 && amps[0] == baseline
      invariant forall k :: 0 <= k < n ==>
                  && times[2 * k + 1] == onsets[k] && amps[2 * k + 1] == amplitude
                  && times[2 * k + 2] == onsets[k] + width && amps[2 * k + 2] == baseline
    {
      var onset := onsets[n];
      times := times + [onset, onset + width];
      amps := amps + [amplitude, baseline];
    }
    times := times + [tStop];
    amps := amps + [baseline];
    w := Waveform(times, amps);
  }

  /** Onsets in increasing order, each pulse ending before the next starts
      and the last one ending by `tStop`. */
  predicate SeparatedPulses(onsets: seq<real>, width: real, tStop: real)
  {
    && width > 0.0
    && (forall j, l :: 0 <= j < l < |onsets| ==> onsets[j] + width <= onsets[l])
    && (forall j :: 0 <= j < |onsets| ==> 0.0 <= onsets[j] && onsets[j] + width <= tStop)
  }

  /** Inside a pulse `[onset, onset + width)` the source delivers the
      amplitude. */
  lemma PulseHeldInside(w: Waveform, amplitude: real, onsets: seq<real>, width: real,
                        tStop: real, baseline: real, k: nat, t: real)
    requires PulseLayout(w, amplitude, onsets, width, tStop, baseline)
    requires SeparatedPulses(onsets, width, tStop)
    requires k < |onsets| && onsets[k] <= t < onsets[k] + width
    ensures Held(w.times, w.amps, t) == amplitude
  {
    forall l | 2 * k + 1 < l < |w.times| ensures w.times[l] > t {
      if l == 2 * k + 2 {
      } else if l == |w.times| - 1 {
      } else if l % 2 == 1 {
        assert w.times[2 * ((l - 1) / 2) + 1] == onsets[(l - 1) / 2];
      } else {
        assert w.times[2 * ((l - 2) / 2) + 2] == onsets[(l - 2) / 2] + width;
      }
    }
    HeldAtLastKnot(w.times, w.amps, t, 2 * k + 1);
  }

  /** From the end of pulse k to the next onset (or to `tStop`), the source
      is back at the baseline. */
  lemma PulseHeldAfter(w: Waveform, amplitude: real, onsets: seq<real>, width: real,
                       tStop: real, baseline: real, k: nat, t: real)
    requires PulseLayout(w, amplitude, onsets, width, tStop, baseline)
    requires SeparatedPulses(onsets, width, tStop)
    requires k < |onsets| && onsets[k] + width <= t < tStop
    requires k + 1 < |onsets| ==> t < onsets[k + 1]
    ensures Held(w.times, w.amps, t) == baseline
  {
    forall l | 2 * k + 2 < l < |w.times| ensures w.times[l] > t {
      if l == |w.times| - 1 {
      } else if l % 2 == 1 {
        assert w.times[2 * ((l - 1) / 2) + 1] == onsets[(l - 1) / 2];
      } else {
        assert w.times[2 * ((l - 2) / 2) + 2] == onsets[(l - 2) / 2] + width;
      }
    }
    HeldAtLastKnot(w.times, w.amps, t, 2 * k + 2);
  }

  /** Before the first onset the source is at the baseline. */
  lemma PulseHeldBefore(w: Waveform, amplitude: real, onsets: seq<real>, width: real,
                        tStop: real, baseline: real, t: real)
    requires PulseLayout(w, amplitude, onsets, width, tStop, baseline)
    requires SeparatedPulses(onsets, width, tStop)
    requires 0.0 <= t < tStop && (|onsets| > 0 ==> t < onsets[0])
    ensures Held(w.times, w.amps, t) == baseline
  {
    forall l | 0 < l < |w.times| ensures w.times[l] > t {
      if l == |w.times| - 1 {
      } else if l % 2 == 1 {
        assert w.times[2 * ((l - 1) / 2) + 1] == onsets[(l - 1) / 2];
      } else {
        assert w.times[2 * ((l - 2) / 2) + 2] == onsets[(l - 2) / 2] + width;
      }
    }
    HeldAtLastKnot(w.times, w.amps, t, 0);
  }

  // ---------------------------------------------------------------------
  // ramp
  // ---------------------------------------------------------------------

  /** `ramp(amplitude, onset, t_stop, baseline, timeStep)` on the time grid
      `times` that `np.arange(0, t_stop + timeStep, timeStep)` produces: the
      masked expression `baseline + amplitude*(times - onset)*(times > onset)`. */
  function Ramp(amplitude: real, onset: real, times: seq<real>, baseline: real): (w: Waveform)
    ensures w.times == times && |w.amps| == |times|
    ensures forall j :: 0 <= j < |times| ==>
              w.amps[j] == (if times[j] <= onset then baseline
                            else baseline + amplitude * (times[j] - onset))
  {
    Waveform(times, seq(|times|, j requires 0 <= j < |times| =>
                          baseline + amplitude * (times[j] - onset)
                                     * (if times[j] > onset then 1.0 else 0.0)))
  }

  /** Between grid point j and the next one (or from the last one on), the
      source built from `ramp` holds the ramp's value at grid point j. */
  lemma RampHeld(amplitude: real, onset: real, times: seq<real>, baseline: real,
                 j: nat, t: real)
    requires Sorted(times) && j < |times| && times[j] <= t
    requires j + 1 < |times| ==> t < times[j + 1]
    ensures var w := Ramp(amplitude, onset, times, baseline);
            Held(w.times, w.amps, t)
            == (if times[j] <= onset then baseline else baseline + amplitude * (times[j] - onset))
  {
    var w := Ramp(amplitude, onset, times, baseline);
    forall l | j < l < |times| ensures times[l] > t {
      assert times[j + 1] <= times[l];
    }
    HeldAtLastKnot(w.times, w.amps, t, j);
  }

  lemma ScaleMonotone(a: real, x: real, y: real)
    requires a >= 0.0 && x <= y
    ensures a * x <= a * y
  {
    assert a * y - a * x == a * (y - x);
  }

  /** On an increasing grid a non-negative ramp never decreases. */
  lemma RampMonotone(amplitude: real, onset: real, times: seq<real>, baseline: real)
    requires amplitude >= 0.0 && Sorted(times)
    ensures Sorted(Ramp(amplitude, onset, times, baseline).amps)
  {
    var amps := Ramp(amplitude, onset, times, baseline).amps;
    forall i, j | 0 <= i < j < |amps| ensures amps[i] <= amps[j] {
      if times[i] > onset {
        ScaleMonotone(amplitude, times[i] - onset, times[j] - onset);
      } else if times[j] > onset {
        ScaleMonotone(amplitude, 0.0, times[j] - onset);
      }
    }
  }

  // ---------------------------------------------------------------------
  // run_simulation
  // ---------------------------------------------------------------------

  /** `if u_init is None: u_init = b * v_init`: the default puts the
      recovery variable where `a*(b*v - u)` vanishes at `v_init`. */
  function InitialRecovery(b: real, vInit: real, uInit: Option<real>): (u: real)
    ensures uInit.Some? ==> u == uInit.value
    ensures uInit.None? ==> b * vInit - u == 0.0
  {
    match uInit
    case Some(given) => given
    case None => b * vInit
  }

  /** `v_init`'s default in `run_simulation`. */
  const DefaultVInit: real := -70.0

  /** With the default recovery, the PyNN cell starts where `get_2003_vm`
      starts (`V = vr`, `u = b*vr`) exactly when `v_init` is that stepper's
      `vr`; with both defaults (`v_init = -70`, `vr = -70`) they agree. */
  lemma DefaultRecoveryMatches2003(p: Izhikevich2003.Params, vInit: real)
    ensures State(vInit, InitialRecovery(p.b, vInit, None)) == Izhikevich2003.InitialState(p)
            <==> vInit == p.vr
    ensures p.vr == -70.0 ==>
              State(DefaultVInit, InitialRecovery(p.b, DefaultVInit, None))
              == Izhikevich2003.InitialState(p)
  {
  }
}
