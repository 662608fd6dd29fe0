/** Failure-carrying values shared by the optimizer modules. */
module Wrappers {

  /** A value that may be absent: Python's `None` versus a present value. */
  datatype Option<+T> = None | Some(value: T)

  /** The single run-time fault the decision engine can raise: the relative
      gain is computed by dividing by the current coin's profit, which may be 0. */
  datatype Fault = ZeroDivision

  /** Either a computed value or the fault that interrupted the computation. */
  datatype Result<+T> = Ok(value: T) | Err(fault: Fault)
}
