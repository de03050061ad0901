# Izhikevich neuron steppers in Dafny

This project models the numerical core of a small neuron-modelling
repository. That core is the hand-written forward-Euler integrators for the
Izhikevich point neuron, and the wrapper object that routes a `celltype` tag
to them. It also models the current-waveform builders of the PyNN figure
script. Every double is modelled as a Dafny `real`.

- `shared.dfy` (module `Shared`) holds the shared types:
  - the state `State(v, u)`;
  - the fixed step `Tau = 0.25`;
  - the `Fault`s a call can raise;
  - `Option` and `Result`.
- `izhikevich2007.dfy` (module `Izhikevich2007`) covers the five
  five-parameter steppers `get_vm_one_two_three`, `get_vm_four`,
  `get_vm_five`, `get_vm_six` and `get_vm_seven`.
  - A pure state machine is the reference: `Iterate` is one loop body,
    `StateAt` is the state iteration i reads, and `Trace` and `Run` give the
    returned array or the exception.
  - Each stepper is a method over the two arrays `v` and `u`. Each is proved
    to return exactly `Run` of its variant.
  - The lemmas state, for each variant, which value a firing iteration leaves
    in `v[i]`, `v[i+1]` and `u[i+1]`. They also cover the type-4 cap, the
    voltage-switched `b` of types 6 and 7, causality, and the output length.
- `izhikevich2003.dfy` (module `Izhikevich2003`) covers `get_2003_vm`, the
  four-parameter stepper on the scalars `V` and `u`. It has a fixed
  threshold and clamp at 30 and runs the loop `N` times.
- `cell_model.dfy` (module `CellModel`) covers `IZHIModel` as a class with
  the fields `vM`, `attrs` and `tstop`. It includes:
  - Python's `round` (ties to even) and `int` (truncation);
  - slice-bound normalisation;
  - the celltype dispatch;
  - the square-current buffer `Iext`, built by slice assignment into an
    array;
  - the constructor, `set_attrs`, `get_membrane_potential` (with its
    cache), `inject_direct_current` and `inject_square_current`.
- `stimulus.dfy` (module `Stimulus`) covers `step`, `pulse` and `ramp`, and
  the `u_init = b*v_init` default of `run_simulation`.
  - `Held` reads a `(times, amps)` pair the way a step current source does:
    each amplitude holds from its knot time to the next knot.
  - `StepHeld` shows that the `step` knots deliver 0 before `t_stop/10` and
    the amplitude at every later time (for `t_stop > 0`).
  - The three `PulseHeld*` lemmas show that, for pulses that do not overlap
    and end by `t_stop`, the `pulse` knots deliver the amplitude inside each
    pulse and the baseline elsewhere on `[0, t_stop)`.
  - For `ramp`, `RampHeld` shows that between two grid points the source
    holds the ramp's value at the earlier one, and `RampMonotone` that the
    values never decrease for a non-negative amplitude.

Error paths:
- the `v[0] = vr` of types 4, 5 and 6 on an empty current raises
  `IndexOutOfRange`, as indexing does in Python (the compiled steppers do
  not check bounds);
- the first voltage update with `C == 0` raises `DivisionByZero`, as the
  compiled steppers do under their default Python error model (plain numpy
  floats would give inf or nan instead);
- `np.zeros` of a negative length raises `NegativeDimension`;
- a tag with no branch leaves `v` unbound: `UnknownCellType`.

Further facts about the code that the model keeps:
- An empty current is not an error for types 1-3 and 7. Those return an
  empty trace, because `range(-1)` is empty and they never touch `v[0]`.
- An unknown tag raises no error of its own; it leaves `v` unbound.
- The step is the constant 0.25.

## Model

| member | source | states |
|---|---|---|
| Izhikevich2007.Trace | numba/izhikevich.py:148-150 | the returned array has one sample per current sample, `len(I)` |
| Izhikevich2007.VmOneTwoThree | numba/izhikevich.py:143-160 | the array loop returns exactly the reference trace of types 1-3: `vr`-filled arrays, `>= vPeak` test, marker `vPeak`, reset `c` and `u+d`; an empty `I` gives an empty trace; `C == 0` with two or more samples raises |
| Izhikevich2007.VmFour | numba/izhikevich.py:25-49 | returns exactly the type-4 reference run: `v[0] = vr` fails on an empty `I`; threshold `vPeak - 0.1*u[i+1]`, marker `vPeak - 0.1*u[i+1]`, reset `c + 0.04*u[i+1]`, recovery `u[i+1]+d` or 670 by the test on `u[i]+d` |
| Izhikevich2007.VmFive | numba/izhikevich.py:52-78 | returns exactly the type-5 reference run: recovery relaxes to 0 when the new `v` is below `d`, cubic term otherwise; reset `c` with `u` unchanged |
| Izhikevich2007.VmSix | numba/izhikevich.py:83-109 | returns exactly the type-6 reference run: `b` switched to 0 or 15 by the new `v`, threshold and marker `vPeak + 0.1*u[i+1]`, reset `c - 0.1*u[i+1]` and `u+d` |
| Izhikevich2007.VmSeven | numba/izhikevich.py:112-139 | returns exactly the type-7 reference run: `b` switched to 2 or 10 by the new `v`, `>= vPeak` test, reset `c` and `u+d`, no `v[0]` assignment |
| Izhikevich2007.RunOutcome | numba/izhikevich.py:31-39 | a run fails if and only if types 4-6 get an empty current (index error) or `C == 0` with at least two samples (division error); otherwise it returns `len(I)` samples |
| Izhikevich2007.InitialSample | numba/izhikevich.py:33-36 | the returned `v[0]` is `vr` unless iteration 0 fires, and then it is that iteration's marker |
| Izhikevich2007.PeakMarkerIsFinal | numba/izhikevich.py:41-42 | if iteration i fires, the returned `v[i]` is `vPeak` for types 1-3, 5 and 7, `vPeak - 0.1*u[i+1]` for type 4 and `vPeak + 0.1*u[i+1]` for type 6 (also lines 74-75, 104-105, 133-134, 156-157) |
| Izhikevich2007.UnfiredSampleIsState | numba/izhikevich.py:149-157 | a sample that no iteration overwrites (no spike there, or the last slot) is the integrated voltage |
| Izhikevich2007.ResetAfterFiring | numba/izhikevich.py:156-159 | after firing iteration i, slot i+1 holds `c`, `c + 0.04*u[i+1]` (type 4) or `c - 0.1*u[i+1]` (type 6); `u[i+1]` gains `d` except in type 5, where it is unchanged; the returned `v[i+1]` is that reset voltage unless iteration i+1 fires (also lines 43, 76, 106-107, 135-136) |
| Izhikevich2007.Type4RecoveryCap | numba/izhikevich.py:44-47 | on a type-4 spike, `u[i+1]` becomes the pre-reset `u[i+1] + d` when `u[i] + d < 670`, and exactly 670 otherwise |
| Izhikevich2007.Type4CapIsNotABound | numba/izhikevich.py:44-47 | in a concrete three-sample type-4 run, iteration 1 fires with `u[1] + d < 670` and leaves `u[2] = 1005`, because the cap tests `u[i]` and not the new `u[i+1]`; the recovery is not bounded by 670 |
| Izhikevich2007.Type5RecoveryBranches | numba/izhikevich.py:68-71 | type 5 uses `-u` when the new `v` is below `d` and `0.025*(v-d)^3 - u` on the old `v` otherwise |
| Izhikevich2007.Type6RecoveryBranches | numba/izhikevich.py:98-102 | type 6 uses `b = 0` when the new `v` is above -65 and `b = 15` otherwise, applied to the old `v` |
| Izhikevich2007.Type7RecoveryBranches | numba/izhikevich.py:127-132 | type 7 uses `b = 2` when the new `v` is above -65 and `b = 10` otherwise, applied to the old `v` |
| Izhikevich2007.IterateIgnoresB | numba/izhikevich.py:98-102 | one type-6 or type-7 iteration gives the same result for every supplied `b` |
| Izhikevich2007.StateIgnoresB | numba/izhikevich.py:127-132 | the whole type-6 or type-7 state sequence is independent of the supplied `b` |
| Izhikevich2007.TraceIgnoresB | numba/izhikevich.py:83-109 | the returned type-6 or type-7 trace is the same for every supplied `b` |
| Izhikevich2007.StateIsCausal | numba/izhikevich.py:151-154 | the state iteration i reads depends only on the currents before i |
| Izhikevich2007.TraceIsCausal | numba/izhikevich.py:151-159 | running on a prefix of `I` gives the same samples before the prefix's last one, and that last one is the unmarked state voltage |
| Izhikevich2007.TraceBounded | numba/izhikevich.py:156-159 | with the `>= vPeak` test (types 1-3, 5, 7) no returned sample exceeds the largest of `vPeak`, `c` and `vr` |
| Izhikevich2003.Trace | numba/izhikevich.py:167-168 | the 2003 stepper returns `len(I)` samples |
| Izhikevich2003.Vm2003 | numba/izhikevich.py:163-181 | the scalar loop over `range(N)` returns exactly the reference trace: `u = b*vr`, `V = vr`, voltage then recovery update on the new `V`, clamp and reset when `V > 30` |
| Izhikevich2003.SampleClamp | numba/izhikevich.py:174-179 | every sample is at most 30; a spike step records exactly 30; any other step records its updated voltage; a sample below 30 is not a spike |
| Izhikevich2003.ResetAfterSpike | numba/izhikevich.py:174-177 | after a spike the next state is `V = c` and `u` = the updated recovery plus `d` |
| Izhikevich2003.RecoveryUsesNewVoltage | numba/izhikevich.py:172-173 | the recovery update reads the voltage just computed in the same step |
| Izhikevich2003.FirstSampleIsUpdated | numba/izhikevich.py:164-171 | the run starts from `V = vr`, `u = b*vr`, and the first sample already comes from one update of that state |
| CellModel.RoundHalfEven | numba/izhikevich.py:292 | `round` gives an integer within 1/2 of the tag, and an even one on a tie |
| CellModel.RoundIsIdempotent | numba/izhikevich.py:292 | rounding an already rounded tag gives it back |
| CellModel.Trunc | numba/izhikevich.py:363-366 | `int` truncates toward zero: the result lies between 0 and the value, less than 1 away |
| CellModel.SliceIndex | numba/izhikevich.py:368-370 | a slice bound inside the array is kept, a negative one counts from the end, and anything beyond is clamped to 0 or the length |
| CellModel.CellVariant | numba/izhikevich.py:298-317 | a rounded tag at most 3 goes to types 1-3, and 4, 5, 6 and 7 go to their stepper, each if and only if; every other tag has no branch |
| CellModel.DispatchOutcome | numba/izhikevich.py:298-322 | the dispatch reports an unbound `v` exactly for tags above 7, a successful run has `len(I)` samples, and a tag up to 7 with two or more samples and `C != 0` succeeds |
| CellModel.RunCellType | numba/izhikevich.py:298-317 | the `if` chain calls the matching stepper method and returns its result, or the unknown-tag error |
| CellModel.Rounded | numba/izhikevich.py:292 | rounding the stored tag keeps the parameters and the current and does not change the branch taken |
| CellModel.MembranePotentialWithoutCurrent | numba/izhikevich.py:231-246 | with no `'I'` stored, types 1-3 and 7 return `[vr]` (default current `[0]`), types 4 and 5 fail on `v[0]` of an empty array, type 6 lacks its current, and other tags have no branch |
| CellModel.MembranePotentialWithCurrent | numba/izhikevich.py:231-246 | with `'I'` stored, `get_membrane_potential` runs the same stepper the injections route to |
| CellModel.SlicedBufferShape | numba/izhikevich.py:368-370 | with indices inside the buffer, the three slice assignments leave the amplitude exactly on `[delay_ind, delay_ind+duration_ind-1)` and 0 elsewhere |
| CellModel.AssignSlice | numba/izhikevich.py:368-370 | `a[start:stop] = x` sets exactly the normalised slice and leaves every other entry unchanged |
| CellModel.SquareCurrentBuffer | numba/izhikevich.py:359-370 | the array built by zeros and three slice assignments equals the reference buffer; a negative `N` and `tMax == 0` fail as `np.zeros` and the division do |
| CellModel.PulseIndicesFit | numba/izhikevich.py:365-366 | for non-negative delay and duration both indices are non-negative and `delay_ind + duration_ind <= N` |
| CellModel.SquareCurrentShape | numba/izhikevich.py:362-370 | for non-negative delay and duration with positive sum, `Iext` has `int(tMax/0.25)` samples, equal to the amplitude exactly on `[delay_ind, delay_ind+duration_ind-1)` and 0 elsewhere |
| CellModel.IzhiModel.constructor | numba/izhikevich.py:188-200 | a new model has no cached trace, and it uses the given dictionary or `default_attrs` |
| CellModel.IzhiModel.SetAttrs | numba/izhikevich.py:255-256 | the dictionary is replaced and the cached trace is kept |
| CellModel.IzhiModel.GetMembranePotential | numba/izhikevich.py:214-253 | a cached trace is returned unchanged; otherwise the tag is rounded in place, the stepper runs on the stored or default current, and a successful trace is cached |
| CellModel.IzhiModel.InjectDirectCurrent | numba/izhikevich.py:275-326 | stores `I`, rounds the tag and runs the routed stepper; `'I'` is removed after a return or an unknown tag, and kept when the stepper raises; a successful trace replaces `vM` |
| CellModel.IzhiModel.InjectSquareCurrent | numba/izhikevich.py:331-415 | sets `tstop = delay + duration` and builds `Iext`, or fails like the buffer; stores `Iext` as `'I'` (not removed), rounds the tag, runs the stepper and caches a successful trace |
| Stimulus.Step | PyNN/izhikevich2004.py:101-104 | three knots in increasing time for a non-negative stop time, with amplitude 0 before `t_stop/10` and `amplitude` from there |
| Stimulus.StepHeld | PyNN/izhikevich2004.py:101-104 | the source built from `step` delivers 0 before `t_stop/10` and `amplitude` at every later time |
| Stimulus.Pulse | PyNN/izhikevich2004.py:107-115 | `2 + 2*len(onsets)` knots: `(0, baseline)`, then `(onset, amplitude)` and `(onset+width, baseline)` at `2k+1`, `2k+2`, then `(t_stop, baseline)`; no onsets gives `([0, t_stop], [baseline, baseline])` |
| Stimulus.PulseHeldInside | PyNN/izhikevich2004.py:110-112 | for separated pulses, the source delivers the amplitude during each `[onset, onset+width)` |
| Stimulus.PulseHeldAfter | PyNN/izhikevich2004.py:110-114 | between the end of a pulse and the next onset (or `t_stop`) the source is at the baseline |
| Stimulus.PulseHeldBefore | PyNN/izhikevich2004.py:108-115 | before the first onset the source is at the baseline |
| Stimulus.Ramp | PyNN/izhikevich2004.py:118-121 | `amps` has one entry per time; it is `baseline` up to the onset and `baseline + amplitude*(t - onset)` after it |
| Stimulus.RampHeld | PyNN/izhikevich2004.py:118-121 | from grid point j until the next grid point (or from the last one on) the source holds the ramp's value at j: `baseline` up to the onset, `baseline + amplitude*(t_j - onset)` after it |
| Stimulus.RampMonotone | PyNN/izhikevich2004.py:120 | on an increasing grid with a non-negative amplitude the ramp never decreases |
| Stimulus.InitialRecovery | PyNN/izhikevich2004.py:58-59 | a given `u_init` is kept; the default puts `u` where `b*v_init - u = 0`, the rest point of the recovery equation |
| Stimulus.DefaultRecoveryMatches2003 | PyNN/izhikevich2004.py:51-59 | with the default recovery, the initial state equals the one `get_2003_vm` starts from (`V = vr`, `u = b*vr`) if and only if `v_init == vr`, which holds for both defaults (-70) |

## Left out

- Floating point: doubles are reals. There are no claims about rounding,
  NaN, infinities or overflow, so `Trunc` and `RoundHalfEven` act on exact
  values.
- Compiled-code behaviour: the steppers are compiled with bounds checking
  off. The model takes the Python meaning of `v[0]` on an empty array (an
  index error), not the unchecked write.
- `times` argument of `get_2003_vm` and its `UU` array: `Vm2003` takes
  `times` and fills `UU` as the code does, but the argument is never read
  and `UU` is never returned, so neither plays a part in its contract.
- Signal wrapping and units: neo `AnalogSignal`, the quantities units, and
  the `isinstance(c['amplitude'], type(pq))` branch with its `print` in
  `inject_square_current` are not modelled. The trace is the plain sample
  sequence and amplitudes are plain numbers.
- Missing `'delay'` or `'duration'` keys in `inject_square_current`: these
  leave `c` unbound. Not modelled, because the model's inputs are always the
  three numbers.
- The dictionary's other keys: `attrs` is a record of the nine parameters,
  the tag and `'I'`. Stray keys such as `'current_inj'`, the dead
  `hasattr(self, 'Iext')` copy, and `temp_attrs` are not modelled.
- Sharing of `default_attrs`: when `attrs` is `default_attrs`, the injections
  mutate that shared dictionary, and the model keeps a value instead. This
  changes no result, because the only changes are a rounded tag (3 stays 3)
  and an `'I'` that every injection overwrites before reading.
- CellModel.IzhiModel.GetMembranePotential: it routes tags 4-7 as the
  injections do. The code passes the unrounded `celltype` keyword on to
  those steppers, and the model does not reproduce that keyword error.
- `get_spike_count`, `wrap_known_i`, `_backend_run` and the `timer`
  decorator: they call into the spike-detection library or into functions
  that do not exist, or they read the clock. None is modelled.
- `set_stop_time`: it only converts a quantities duration to milliseconds
  and stores it in `tstop` (unit handling, as under "Signal wrapping and
  units"). The model has no such method, so `inject_square_current` is the
  only writer of `tstop` in it.
- `run_simulation` apart from its `u_init` default: the simulator calls,
  plotting and the module-level figure script are not modelled.
- Stimulus.Ramp: the grid `np.arange(0, t_stop + timeStep, timeStep)` is
  taken as an input sequence, because its length depends on float rounding.
- Stimulus.Held: the step current source that consumes the knots lives
  outside this repository, so `Held` is this model's reading of it (hold
  each amplitude until the next knot, 0 before the first).
- Izhikevich2003.SampleClamp: a sample of exactly 30 does not imply a spike.
  A step whose updated `V` is exactly 30 does not fire (`V > 30` is false)
  and still records 30, so only "spike implies 30" and "below 30 implies no
  spike" hold.
- Izhikevich2007.TraceBounded: it is not stated for types 4 and 6, whose
  threshold and marker move with `u` and have no fixed bound.
- Izhikevich2007.ResetAfterFiring: the returned `v[i+1]` equals the reset
  voltage only when iteration i+1 does not fire, because a firing iteration
  i+1 overwrites it with its own marker. Type 4's recovery is stated by
  `Type4RecoveryCap` instead.
