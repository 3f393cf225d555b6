# SCF_method core in Dafny

A model of the self-consistent-field (Hartree–Fock, Roothaan–Hall) procedure
of the `SCF_method` package, with its numerics made abstract.

The procedure works as follows:
- It builds the overlap matrix S over a Gaussian basis set, which renormalises the basis.
- It then builds the kinetic-energy matrix T, the nuclear-attraction matrix V_nuc and the four-index two-electron tensor `mnls` over the renormalised basis.
- It hands these to an iterator object.
- It steps the iterator while its convergence criterion says to go on.

Each step commits the candidate density P_new, then recomputes from it:
- the two-electron matrix G;
- the Fock matrix F = T + V_nuc + G;
- the coefficient matrix C and the orbital energies E, from the eigen-decomposition of Xᵀ F X, where X = U diag(s^-1/2) Uᵀ is built once from S;
- the closed-shell density P_new.

What is concrete and what is abstract:
- The integrators (Monte Carlo in the source) are arbitrary functions from an integrand to `real`.
- An integrand is data: the `Field` expression tree for the 3D integrals, and the four basis functions of a `Repulsion` for the 6D ones.
- The Gaussian basis function is the record (exponent, centre, norm).
- `np.linalg.eig`, `np.sqrt` and `x ** -0.5` are the function fields of `Linalg.Numerics`.
- Everything else is concrete: the fill loops (in place, on `array2`/`array4`), the sums, the matrix algebra, the basis-set layout and renormalisation, the iterator's state machine and the driver loop.

Files:
- Matrix builders: `pair_matrices.dfy` (the upper-triangle fill shared by the overlap and kinetic builders, the older kinetic copy and the nuclear builder), `overlap_matrix.dfy`, `kinetic_energy_matrix.dfy`, `legacy_kinetic_energy_matrix.dfy`, `nuclear_attraction_matrix.dfy`, `two_electron_integral_matrix.dfy`.
- Basis: `basis_functions.dfy` and `legacy_basis_functions.dfy`.
- Iterator: `calculation_iterator.dfy`.
- Driver: `procedure.dfy`.
- Supporting modules: `linalg.dfy`, `sums.dfy`, `integrands.dfy`, `molecule.dfy`, `convergence_config.dfy`.

The density loop takes the first `N // 2` columns of C, in the order `eig` returns them. `eig` does not sort its output, so these are not necessarily the lowest orbitals, as a description of the method would say. The model follows the code.

## Model

| member | source | states |
|---|---|---|
| Basis.Shell | SCF_method/calculation/basis/basis_functions.py:86-88 | one function per exponent, in exponent order, each with the nucleus as centre and the table's factor as norm |
| Basis.BasisSetOf | SCF_method/calculation/basis/basis_functions.py:84-90 | the set has length \|nuclei\|·\|alphas\|; element i·\|alphas\|+j is (alphas[j], nuclei[i], factors[i][j]), nucleus-major |
| Basis.SameLayout | SCF_method/calculation/basis/basis_functions.py:99-102 | two normalisation tables over the same layout give sets of equal length with the same exponent and centre at every index |
| Basis.CreateBasisSet | SCF_method/calculation/basis/basis_functions.py:84-90 | the double append loop builds exactly BasisSetOf |
| Basis.Reshape | SCF_method/calculation/basis/basis_functions.py:99 | a rows×cols table whose entry [i][j] is c[i·cols+j] (row-major) |
| Basis.Lookup | SCF_method/calculation/basis/basis_functions.py:32-33 | Python list indexing: a result exactly for -len ≤ item < len, counted from the end for negative items |
| Basis.GaussianBasis.constructor | SCF_method/calculation/basis/basis_functions.py:13-30 | stores nuclei, exponents and table; the set is BasisSetOf them, of length \|nuclei\|·\|alphas\| |
| Basis.GaussianBasis.GetItem | SCF_method/calculation/basis/basis_functions.py:32-33 | `__getitem__` is Lookup on the stored set, unchanged |
| Basis.GaussianBasis.Length | SCF_method/calculation/basis/basis_functions.py:35-36 | `__len__` is the length of the stored set |
| Basis.GaussianBasis.Iterate | SCF_method/calculation/basis/basis_functions.py:38-40 | `__iter__` yields the stored set, in order |
| Basis.GaussianBasis.Renormalize | SCF_method/calculation/basis/basis_functions.py:92-102 | succeeds exactly when the coefficient count equals the table's element count; then the table is the row-major reshape and element i·\|alphas\|+j has norm c[i·\|alphas\|+j]; length, exponents and centres are kept; on failure nothing changes |
| LegacyBasis.GaussianBasis.constructor | SCF_method/basis/basis_functions.py:6-13 | stores the table as passed (array or list) and builds the nucleus-major set |
| LegacyBasis.GaussianBasis.GetItem | SCF_method/basis/basis_functions.py:15-16 | Lookup on the stored set |
| LegacyBasis.GaussianBasis.Length | SCF_method/basis/basis_functions.py:18-19 | length of the stored set |
| LegacyBasis.GaussianBasis.Iterate | SCF_method/basis/basis_functions.py:21-23 | yields the stored set, in order |
| LegacyBasis.GaussianBasis.Renormalize | SCF_method/basis/basis_functions.py:47-51 | fails when the table was passed as a plain list (no `.shape`) or the counts differ; otherwise the row-major reshape, with norms c[k] and exponents, centres and length kept |
| Integrands.CoulombPotential | SCF_method/calculation/matrices/nuclear_attraction_matrix.py:47-56 | one point charge per atomic number; the a-th is built from Z_a and R_a only |
| Integrands.PotentialAppend | SCF_method/calculation/matrices/nuclear_attraction_matrix.py:54-56 | the potential of two charge lists joined is the sum of their potentials |
| Integrands.PrefixSum | SCF_method/calculation/matrices/nuclear_attraction_matrix.py:54-56 | the potential of the first n charges is the sum of the first n per-nucleus terms |
| Integrands.PotentialIsSumOverNuclei | SCF_method/calculation/matrices/nuclear_attraction_matrix.py:47-56 | V(r) = Σ_a -Z_a · (1/\|r-R_a\|), one term per atomic number |
| Integrands.OverlapIntegrandValue | SCF_method/calculation/matrices/overlap_matrix.py:29-39 | the overlap integrand is base_i(r)·base_j(r) |
| Integrands.KineticIntegrandValue | SCF_method/calculation/matrices/kinetic_energy_matrix.py:34-66 | the kinetic integrand is -1/2·base_i(r) times the 7-point stencil (step 1e-5) Laplacian of base_j: the Laplacian acts on the second function only |
| Integrands.NuclearIntegrandValue | SCF_method/calculation/matrices/nuclear_attraction_matrix.py:32-45 | the nuclear integrand is base_i(r)·V(r)·base_j(r), with V the sum over nuclei |
| PairMatrices.PairMatrix | SCF_method/calculation/matrices/kinetic_energy_matrix.py:73-84 | the filled matrix is L×L and symmetric, and on and above the diagonal holds the integral for (b_p, b_q), p ≤ q |
| PairMatrices.RowsShape | SCF_method/calculation/matrices/kinetic_energy_matrix.py:75-77 | the calls of the first i rows are exactly the pairs p ≤ q with p < i, in strictly increasing order, i(2n+1-i)/2 of them |
| PairMatrices.TriangleCalls | SCF_method/calculation/matrices/kinetic_energy_matrix.py:75-77 | the integrator is called once for each pair p ≤ q < n and for no other, never twice, n(n+1)/2 times |
| PairMatrices.Fill | SCF_method/calculation/matrices/kinetic_energy_matrix.py:73-84 | a freshly allocated, zero-initialised L×L array, filled on the upper triangle and mirrored, holds PairMatrix; the calls are UpperTriangle(L) |
| KineticEnergyMatrix.CalculateSelf | SCF_method/calculation/matrices/kinetic_energy_matrix.py:68-84 | T is L×L, equals PairMatrix of the kinetic integrand (so it is symmetric, with T[i][i] the integral for (b_i, b_i)), with one call per pair i ≤ j |
| LegacyKineticEnergyMatrix.CalculateSelf | SCF_method/matrices/kinetic_energy_matrix.py:39-50 | the same as the current builder, over the older basis class |
| NuclearAttractionMatrix.CalculateSelf | SCF_method/calculation/matrices/nuclear_attraction_matrix.py:58-73 | V_nuc is L×L, equals PairMatrix of base_i·V·base_j (so it is symmetric), with one call per pair i ≤ j; the molecule and basis are not written |
| OverlapMatrix.Norms | SCF_method/calculation/matrices/overlap_matrix.py:56 | n_i = sqrt(raw[i][i]) for every i |
| OverlapMatrix.NormsExact | SCF_method/calculation/matrices/overlap_matrix.py:56 | with an exact square root and a positive raw diagonal, n_i > 0 and n_i² = raw[i][i] |
| OverlapMatrix.Reciprocals | SCF_method/calculation/matrices/overlap_matrix.py:58 | 1/n: each entry times n_i is 1 |
| OverlapMatrix.Outer | SCF_method/calculation/matrices/overlap_matrix.py:59 | np.outer(n, n): entry n_i·n_j, symmetric |
| OverlapMatrix.OuterPositive | SCF_method/calculation/matrices/overlap_matrix.py:59 | positive norms give a positive outer product, so the division is defined |
| OverlapMatrix.Rescale | SCF_method/calculation/matrices/overlap_matrix.py:59 | S[i][j]·n_i·n_j = raw[i][j]; a symmetric raw matrix gives a symmetric S; S[i][i] = 1 where raw[i][i] > 0 and n_i² = raw[i][i] |
| OverlapMatrix.Divide | SCF_method/calculation/matrices/overlap_matrix.py:59 | the entrywise division on the filled array yields Rescale(raw, n) |
| OverlapMatrix.RescaleEntries | SCF_method/calculation/matrices/overlap_matrix.py:59 | a matrix with entries raw[i][j]/(n_i n_j) is Rescale(raw, n) |
| OverlapMatrix.CalculateSelf | SCF_method/calculation/matrices/overlap_matrix.py:41-60 | the raw matrix is the pair fill of the basis as given (one call per pair i ≤ j). renormalize is called once with 1/n_i, after all raw entries. It succeeds exactly when the sizes match, in which case element i·\|alphas\|+j gets norm 1/n_k. Exponents and centres are kept. The result is Rescale(raw, n) |
| TwoElectronIntegralMatrix.Update | SCF_method/calculation/matrices/two_electron_integral_matrix.py:69-75 | one value written to every position of the quadruple's 8-element orbit, all else unchanged |
| TwoElectronIntegralMatrix.OrbitEquivalence | SCF_method/calculation/matrices/two_electron_integral_matrix.py:69-75 | orbit membership is symmetric and transitive |
| TwoElectronIntegralMatrix.SymmetricUpdate | SCF_method/calculation/matrices/two_electron_integral_matrix.py:69-75 | writing one value to a whole orbit keeps the tensor constant on every orbit |
| TwoElectronIntegralMatrix.OrbitEntry | SCF_method/calculation/matrices/two_electron_integral_matrix.py:69-75 | in an orbit-constant array every orbit member holds the same entry |
| TwoElectronIntegralMatrix.ArrayGenerators | SCF_method/calculation/matrices/two_electron_integral_matrix.py:69-75 | an orbit-constant array is invariant under i↔j, k↔l and (ij)↔(kl) |
| TwoElectronIntegralMatrix.GeneratorsEightWay | SCF_method/calculation/matrices/two_electron_integral_matrix.py:69-75 | invariance under the three generators is invariance under all 8 permutations |
| TwoElectronIntegralMatrix.GeneratorsTensor | SCF_method/calculation/matrices/two_electron_integral_matrix.py:69-75 | an array invariant under the generators has an 8-way symmetric tensor value |
| TwoElectronIntegralMatrix.SymmetricTensor | SCF_method/calculation/matrices/two_electron_integral_matrix.py:69-76 | an orbit-constant array has an 8-way symmetric tensor value |
| TwoElectronIntegralMatrix.BeforeNext | SCF_method/calculation/matrices/two_electron_integral_matrix.py:60-63 | the quadruples before q's successor are those before q, and q |
| TwoElectronIntegralMatrix.SkipStep | SCF_method/calculation/matrices/two_electron_integral_matrix.py:64 | skipping a nonzero entry keeps the loop invariant |
| TwoElectronIntegralMatrix.FreshOrbit | SCF_method/calculation/matrices/two_electron_integral_matrix.py:64-68 | under a never-zero integrator a zero entry lies in no earlier call's orbit |
| TwoElectronIntegralMatrix.SourcedStep | SCF_method/calculation/matrices/two_electron_integral_matrix.py:64-75 | after integrating q, every nonzero entry is still the integral of a call in its orbit |
| TwoElectronIntegralMatrix.OrderStep | SCF_method/calculation/matrices/two_electron_integral_matrix.py:60-68 | the calls stay in range, in strictly increasing loop order, before the cursor |
| TwoElectronIntegralMatrix.DistinctStep | SCF_method/calculation/matrices/two_electron_integral_matrix.py:64-68 | a call for a fresh orbit keeps the calls' orbits distinct |
| TwoElectronIntegralMatrix.HoldStep | SCF_method/calculation/matrices/two_electron_integral_matrix.py:64-75 | earlier calls keep their values and the new call holds its own |
| TwoElectronIntegralMatrix.LeaderStep | SCF_method/calculation/matrices/two_electron_integral_matrix.py:64 | a zero entry after a nonzero prefix comes first in its orbit |
| TwoElectronIntegralMatrix.LeadersStep | SCF_method/calculation/matrices/two_electron_integral_matrix.py:64-68 | every call so far comes first in its orbit |
| TwoElectronIntegralMatrix.VisitedStep | SCF_method/calculation/matrices/two_electron_integral_matrix.py:64-75 | under a never-zero integrator every visited quadruple is nonzero |
| TwoElectronIntegralMatrix.StoreStep | SCF_method/calculation/matrices/two_electron_integral_matrix.py:64-75 | the integrating branch keeps the loop invariant |
| TwoElectronIntegralMatrix.SettledStep | SCF_method/calculation/matrices/two_electron_integral_matrix.py:64-75 | under a never-zero integrator the integrating branch keeps calls distinct by orbit, holding, and leaders |
| TwoElectronIntegralMatrix.CursorShift | SCF_method/calculation/matrices/two_electron_integral_matrix.py:60-63 | cursors with the same in-range predecessors carry the same invariant |
| TwoElectronIntegralMatrix.CarryStep | SCF_method/calculation/matrices/two_electron_integral_matrix.py:60-63 | the end of an inner loop is the next start of the loop around it |
| TwoElectronIntegralMatrix.Start | SCF_method/calculation/matrices/two_electron_integral_matrix.py:58-59 | the all-zero tensor with no calls satisfies the invariant |
| TwoElectronIntegralMatrix.WriteOrbit | SCF_method/calculation/matrices/two_electron_integral_matrix.py:69-75 | the eight writes set exactly q's orbit to v |
| TwoElectronIntegralMatrix.Visit | SCF_method/calculation/matrices/two_electron_integral_matrix.py:64-75 | a zero entry is integrated and written to its orbit with one call recorded; a nonzero entry is left alone with no call; an entry that is already nonzero is never changed afterwards |
| TwoElectronIntegralMatrix.PastEnd | SCF_method/calculation/matrices/two_electron_integral_matrix.py:60-63 | every in-range quadruple is visited |
| TwoElectronIntegralMatrix.LeaderUnique | SCF_method/calculation/matrices/two_electron_integral_matrix.py:69-75 | an orbit has one leader |
| TwoElectronIntegralMatrix.Finished | SCF_method/calculation/matrices/two_electron_integral_matrix.py:60-76 | under a never-zero integrator every entry ends nonzero and a quadruple is integrated exactly when it comes first in its orbit |
| TwoElectronIntegralMatrix.SourcedEntries | SCF_method/calculation/matrices/two_electron_integral_matrix.py:64-76 | every nonzero final entry is the integral of a call in its own orbit |
| TwoElectronIntegralMatrix.FinishedEntries | SCF_method/calculation/matrices/two_electron_integral_matrix.py:64-76 | under a never-zero integrator each call's entry holds its integral, and no entry is 0 |
| TwoElectronIntegralMatrix.Conclude | SCF_method/calculation/matrices/two_electron_integral_matrix.py:60-76 | the invariant after the loops gives every property of Build |
| TwoElectronIntegralMatrix.Build | SCF_method/calculation/matrices/two_electron_integral_matrix.py:58-76 | a freshly allocated L⁴ tensor, 8-way symmetric. Calls are in range and strictly increasing, so no quadruple is integrated twice. Every nonzero entry is the integral of a call in its orbit. If the integrator never returns 0: one call per orbit, for its first quadruple; each call's entry holds its value; no entry is 0 |
| TwoElectronIntegralMatrix.TensorIntegrals | SCF_method/calculation/matrices/two_electron_integral_matrix.py:60-76 | Build's statements about the array give IntegralsOf its tensor: each nonzero entry is the integral of a quadruple in its orbit; for a never-zero integrator no entry is zero and each orbit's first quadruple holds its own integral |
| TwoElectronIntegralMatrix.CalculateSelf | SCF_method/calculation/matrices/two_electron_integral_matrix.py:53-76 | Build over the basis object's functions, with all of Build's conclusions: an 8-way symmetric L⁴ tensor whose nonzero entries are integrals of calls in their orbits (IntegralsOf), calls in range and in strictly increasing order, and, for a never-zero integrator, no zero entry and exactly one call per orbit, at its first quadruple |
| Linalg.Identity | SCF_method/calculation/calculation_iterator.py:49 | the L×L identity, symmetric |
| Linalg.Add | SCF_method/calculation/calculation_iterator.py:89 | entrywise sum; sums of symmetric matrices are symmetric |
| Linalg.Transpose | SCF_method/calculation/calculation_iterator.py:51 | M[i][j] = A[j][i] |
| Linalg.MatMul | SCF_method/calculation/calculation_iterator.py:93-95 | M[i][j] = Σ_t A[i][t]·B[t][j] |
| Linalg.Diag | SCF_method/calculation/calculation_iterator.py:51 | v on the diagonal, 0 elsewhere |
| Linalg.MatrixOf | SCF_method/calculation/matrices/kinetic_energy_matrix.py:84 | the value of a 2-D array, entry by entry |
| Linalg.TensorOf | SCF_method/calculation/matrices/two_electron_integral_matrix.py:76 | the value of a 4-D array, entry by entry |
| Sums.GridCongruent | SCF_method/calculation/calculation_iterator.py:83-85 | grids agreeing on their range have equal sums |
| Sums.GridZero | SCF_method/calculation/calculation_iterator.py:83-85 | a zero grid sums to 0 |
| Sums.GridNonNegative | SCF_method/calculation/calculation_iterator.py:112 | a non-negative grid has a non-negative sum |
| Sums.GridScale | SCF_method/calculation/calculation_iterator.py:112 | scaling every entry by c scales the sum by c |
| Sums.GridSwap | SCF_method/calculation/calculation_iterator.py:83-85 | summing row by row equals summing the transposed grid row by row |
| CalculationIterator.GMatrix | SCF_method/calculation/calculation_iterator.py:81-86 | G is L×L with G[m][n] the loop-order sum over (i, j) of P[i][j]·(mnls[m][n][j][i] - ½·mnls[m][i][j][n]) |
| CalculationIterator.GEntryIsGridSum | SCF_method/calculation/calculation_iterator.py:81-86 | each G[m][n] is the grid sum of its terms |
| CalculationIterator.ZeroDensityZeroG | SCF_method/calculation/calculation_iterator.py:81-86 | an all-zero P gives an all-zero G |
| CalculationIterator.GSymmetric | SCF_method/calculation/calculation_iterator.py:81-86 | a symmetric P and an 8-way symmetric mnls give a symmetric G |
| CalculationIterator.Fock | SCF_method/calculation/calculation_iterator.py:88-90 | F[i][j] = T[i][j] + V_nuc[i][j] + G[i][j] |
| CalculationIterator.FockSymmetric | SCF_method/calculation/calculation_iterator.py:88-90 | with symmetric T, V_nuc and P and an 8-way symmetric mnls, F is symmetric |
| CalculationIterator.InverseSqrts | SCF_method/calculation/calculation_iterator.py:51 | s ** -0.5 entrywise |
| CalculationIterator.Orthogonalizer | SCF_method/calculation/calculation_iterator.py:50-51 | X = U diag(s^-1/2) Uᵀ is L×L and symmetric whatever eig returns |
| CalculationIterator.DiagonalColumn | SCF_method/calculation/calculation_iterator.py:51 | right-multiplying by diag(d) scales column t by d[t] |
| CalculationIterator.SandwichEntry | SCF_method/calculation/calculation_iterator.py:51 | the partial sums of (U D) Uᵀ are symmetric in i and j |
| CalculationIterator.SandwichSymmetric | SCF_method/calculation/calculation_iterator.py:51 | U D Uᵀ is symmetric for diagonal D |
| CalculationIterator.Transformed | SCF_method/calculation/calculation_iterator.py:93 | F' = Xᵀ F X is L×L |
| CalculationIterator.CMatrix | SCF_method/calculation/calculation_iterator.py:92-96 | C = X C' is L×L and E is the L eigenvalues of F' |
| CalculationIterator.Occupied | SCF_method/calculation/calculation_iterator.py:100 | N // 2: 2k ≤ N < 2k+2 for N ≥ 0, and 0 for N < 2 |
| CalculationIterator.DensitySumSymmetric | SCF_method/calculation/calculation_iterator.py:98-104 | Σ_a 2 C[μ][a] C[ν][a] is symmetric in μ and ν |
| CalculationIterator.Density | SCF_method/calculation/calculation_iterator.py:98-104 | P_new[μ][ν] = Σ_{a<N//2} 2·C[μ][a]·C[ν][a]; P_new is L×L and symmetric, and all zero when N < 2 |
| CalculationIterator.SquaredDifferences | SCF_method/calculation/calculation_iterator.py:112 | the entries of (A - B) ** 2 |
| CalculationIterator.SumOfSquares | SCF_method/calculation/calculation_iterator.py:112 | np.sum((A-B)**2) is ≥ 0, and 0 when A = B |
| CalculationIterator.ConvergedIsEpsilonTest | SCF_method/calculation/calculation_iterator.py:112-114 | for L > 0 and an exact square root, the squared comparison holds exactly when sqrt(Σ(P-P_new)²/L²) ≤ δ |
| CalculationIterator.QuotientBound | SCF_method/calculation/calculation_iterator.py:112-114 | s/a ≤ b exactly when s ≤ b·a, for a > 0 |
| CalculationIterator.SquareMonotone | SCF_method/calculation/calculation_iterator.py:112-114 | for r, δ ≥ 0: r² ≤ δ² exactly when r ≤ δ |
| CalculationIterator.Average | SCF_method/calculation/calculation_iterator.py:117 | (P_new + P)/2 entrywise, symmetric when both are |
| CalculationIterator.AveragingQuarters | SCF_method/calculation/calculation_iterator.py:116-117 | averaging halves the distance to P: the sum of squared differences drops to a quarter |
| CalculationIterator.StepConsistent | SCF_method/calculation/calculation_iterator.py:74-78 | recomputing G, F, C, E and P_new from a symmetric P gives a consistent state |
| CalculationIterator.SelfConsistentFieldCalculation.constructor | SCF_method/calculation/calculation_iterator.py:24-57 | the inputs and config are stored, P is the identity, X comes from S, and G, F, C, E, P_new follow from P; no counter yet |
| CalculationIterator.SelfConsistentFieldCalculation.Iter | SCF_method/calculation/calculation_iterator.py:59-67 | returns the same object with the counter at 1; nothing else changes |
| CalculationIterator.SelfConsistentFieldCalculation.Next | SCF_method/calculation/calculation_iterator.py:69-79 | P becomes the old P_new, the state is consistent with it again, P_new = Density(C, N), and the counter goes up by exactly 1; S, T, V_nuc, mnls and X are `const` |
| CalculationIterator.SelfConsistentFieldCalculation.CalculateGMatrix | SCF_method/calculation/calculation_iterator.py:81-86 | the accumulation loop computes GMatrix(P, mnls) |
| CalculationIterator.SelfConsistentFieldCalculation.CalculateElectronDensityMatrix | SCF_method/calculation/calculation_iterator.py:98-104 | the triple loop computes Density(C, N) |
| CalculationIterator.SelfConsistentFieldCalculation.ConvergenceCriterion | SCF_method/calculation/calculation_iterator.py:106-122 | returns false exactly when ε ≤ δ or the counter equals max_iteration. P_new is left alone on the δ-stop. Otherwise, with averaging on, P_new is averaged with P, also on the max-iteration stop. Nothing else changes |
| Procedure.SelfConsistentFieldProcedure.constructor | SCF_method/calculation/procedure.py:19-36 | stores the basis, molecule, both integrators and the config |
| Procedure.SelfConsistentFieldProcedure.OverlapStep | SCF_method/calculation/procedure.py:43 | succeeds exactly when the table's size is L. Then S is the rescaled raw overlap of the basis as given, symmetric with unit diagonal; the stored table has the old shape with entry [i][j]·n_{i·cols+j} = 1 for the positive norms n_k = sqrt(raw S_kk) (Renormalized); every function keeps its exponent and centre; and with one column per exponent the function at nucleus-major index k has norm 1/n_k. On failure the table is unchanged |
| Procedure.SelfConsistentFieldProcedure.BasisIntegrals | SCF_method/calculation/procedure.py:44-46 | T and V_nuc are the 3D-integrator pair fills over the current (renormalised) basis; mnls is 8-way symmetric and IntegralsOf the 6D integrator over that basis: each nonzero entry is the integral of a quadruple in its orbit, and for a never-zero integrator every entry is nonzero and each orbit's first quadruple holds its integral |
| Procedure.SelfConsistentFieldProcedure.Calculate | SCF_method/calculation/procedure.py:38-60 | raises exactly on a size mismatch. Otherwise it returns a fresh, consistent iterator with N from the molecule and the procedure's config. S is built from the original basis, with unit diagonal. The basis then holds the reciprocal-norm table (Renormalized) with exponents and centres kept, and T, V_nuc and mnls (IntegralsOf the 6D integrator) are built from that renormalised basis. F is symmetric. On a normal stop the density converged or the counter reached max_iteration, and it never passes a positive max_iteration |
| Procedure.Iterate | SCF_method/calculation/procedure.py:55-58 | the loop keeps the state consistent. On a stop the criterion's stopping condition holds, and the counter (1 + the number of `next` calls) stays within a positive max_iteration. Fuel for max_iteration - 1 steps always suffices |
| Procedure.Start | SCF_method/calculation/procedure.py:55-57 | `iter` then the first criterion: counter 1; going on means it is short of max_iteration, stopping means the stopping condition |
| Procedure.Step | SCF_method/calculation/procedure.py:57-58 | `next` only while short of max_iteration, then the criterion: counter +1, consistent again, and stop or go on as in Start |
| Procedure.FuelSuffices | SCF_method/calculation/procedure.py:55-58 | a loop still running after `fuel` steps implies max_iteration > fuel + 1 (or max_iteration ≤ 0) |
| Procedure.ReciprocalTable | SCF_method/calculation/matrices/overlap_matrix.py:56-58 | the row-major reshape of 1/n_k for positive norms n_k is a table with entry [i][j]·n_{i·cols+j} = 1 |
| Procedure.UnitDiagonal | SCF_method/calculation/matrices/overlap_matrix.py:56-59 | a rescaled overlap whose norms square to its positive diagonal has 1 on the diagonal |
| Procedure.FockOfValid | SCF_method/calculation/calculation_iterator.py:88-90 | a consistent iterator over symmetric integrals has a symmetric Fock matrix |

## Left out

- Monte Carlo integration (`integration/integrators.py` in both trees): random sampling is replaced by arbitrary integrator functions.
- Floating point: the Gaussian `exp`, the 1/\|r\| kernels and the sums are exact `real` arithmetic; `Kernels` leaves the two pointwise kernels abstract.
- `np.linalg.eig`, `np.sqrt` and `x ** -0.5` are uninterpreted fields of `Numerics`. Only their shapes (`EigShaped`) and, where needed, an exact positive square root (`SqrtExact`) are assumed. No spectral property of eig is used, so E and C are not shown to diagonalise F'.
- The user-supplied initial density `P`: `P if P` on a numpy array raises for more than one element, so only the identity default is modelled.
- `output_handler.py`, `calculation_executor.py` (JSON I/O), `logger.py` and the `*_mapping.py` lookup tables are outside the model; logging calls are dropped.
- The `Molecule` and `ConvergenceConfig` classes are plain datatypes; `Convergence.DefaultConfig` holds the constructor defaults (5000, false, 1e-6).
- Procedure.SelfConsistentFieldProcedure.Calculate: the Python `while` loop has no bound, so the model takes a `fuel` step count and reports `FuelExhausted` when it runs out. Fuel for max_iteration - 1 steps is proved enough when max_iteration ≥ 1. With max_iteration ≤ 0 the source can loop for ever, and the model then stops at the fuel bound.
- Procedure.SelfConsistentFieldProcedure.Calculate: requires every raw overlap diagonal entry to be positive and the square root to be exact. The source would produce nan or inf norms otherwise, and those are not modelled.
- Procedure.SelfConsistentFieldProcedure.Calculate: requires N // 2 ≤ L (`Occupied`). With more occupied orbitals the Python density loop raises IndexError, and that exception path is not modelled.
- Procedure.SelfConsistentFieldProcedure.Calculate: requires at most as many atomic numbers as nuclear positions, because the source would raise IndexError in the potential otherwise.
- CalculationIterator.SelfConsistentFieldCalculation.Next: requires the inputs, X and a symmetric L×L P_new, which every state reachable from the constructor has. It is not modelled on arbitrary attribute values. It also requires the counter to exist (`__iter__` called); otherwise Python raises AttributeError at `self.iteration += 1`, after the fields have been reassigned, and that exception path is not modelled.
- CalculationIterator.SelfConsistentFieldCalculation.ConvergenceCriterion: requires the counter to exist (`__iter__` called) unless the density has converged. Without it Python raises AttributeError, which is not modelled.
- CalculationIterator.Converged: ε is nan when L = 0 (numpy's 0/0), and nan ≤ δ is false, so an empty basis is "not converged".
- TwoElectronIntegralMatrix.Build: states "one call per orbit" only for an integrator that never returns exactly 0. A zero result leaves its orbit open, so it is integrated again on later visits. For a general integrator the contract states that the calls are in range and in strictly increasing loop order; the resulting bound of L⁴ calls is not stated as a count.
- Basis.GaussianBasis.constructor: requires a rectangular table (`IsTable`) and one that covers every (nucleus, exponent) pair (`CoversLayout`). A ragged table makes `np.array` raise ValueError (basis_functions.py:25), and an uncovered pair makes `_create_basis_set` raise IndexError (basis_functions.py:88); neither exception path is modelled.
- LegacyBasis.GaussianBasis.constructor: requires a table that covers every (nucleus, exponent) pair; an uncovered pair makes `_create_basis_set` raise IndexError, which is not modelled. When the table is passed as a numpy array it is taken to be rectangular (`IsTable`), so a ragged object array is not modelled either.
- Basis.GaussianBasis.Renormalize: the extra constructor `*args`/`**kwargs` are fixed to the one keyword the Gaussian basis takes (`alphas`).
