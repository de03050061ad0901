/** Types shared by the Izhikevich steppers, the cell model and the
    stimulus builders: the two state variables of a point neuron, the fixed
    integration step, and the ways a run can fail. */
module Shared {

  /** Forward-Euler step used by every hand-written stepper, in ms. */
  const Tau: real := 0.25

  /** Membrane potential `v` and recovery variable `u` at one sample. */
  datatype State = State(v: real, u: real)

  /** The exceptions the modelled code raises. */
  datatype Fault =
    | IndexOutOfRange    // `v[0] = vr` on a zero-length array
    | DivisionByZero     // `/ C` with C == 0, or `delay/tMax` with tMax == 0
    | NegativeDimension  // `np.zeros(N)` with N < 0
    | UnknownCellType    // no branch of the dispatch binds `v`
    | MissingCurrent     // the type-6 stepper called without its positional `I`
    | MissingAttributes  // `attrs` looked up while it is None

  datatype Option<T> = None | Some(value: T)

  datatype Result<T> = Ok(value: T) | Err(fault: Fault)
}
