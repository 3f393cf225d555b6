/**
 * Convergence parameters of the SCF iteration
 * (SCF_method/calculation/convergence/convergence_config.py).
 */
module Convergence {

  datatype ConvergenceConfig = ConvergenceConfig(maxIteration: int, averaging: bool, delta: real)

  /** The keyword defaults of the constructor: 5000 iterations, no averaging, δ = 1e-6. */
  const DefaultConfig := ConvergenceConfig(5000, false, 0.000001)
}
