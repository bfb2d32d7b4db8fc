/** Error results shared by the environment and the agents. */
module Failures {

  /** The errors the simulator raises, one constructor per cause. LengthMismatch, ProbabilityOutOfRange,
      ArmOutOfRange, EmptyArgMax, EmptyChoice, EmptyMax and NegativeDimension are ValueErrors; IndexOutOfRange is the
      IndexError of list and array indexing. */
  datatype Error =
    | LengthMismatch(probabilities: nat, rewards: nat)  // probability and reward lists differ in length
    | ProbabilityOutOfRange                             // some reward probability lies outside [0, 1]
    | ArmOutOfRange(arm: int, arms: nat)                // ValueError: choose_arm was given an arm outside [0, k)
    | EmptyArgMax                                       // numpy's argmax over zero arms
    | EmptyChoice                                       // numpy's random choice among zero arms
    | EmptyMax                                          // Python's max over an empty list
    | NegativeDimension(dimension: int)                 // numpy's zeros asked for a negative length
    | IndexOutOfRange(index: int, length: nat)          // a list or array index outside [-length, length)

  datatype Result<T> = Ok(value: T) | Err(error: Error)
}
