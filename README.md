# Position-based dynamics solver for tetrahedral soft tissue

This project models the solver core of a position-based dynamics (PBD) simulator for soft tissue meshed as tetrahedra.

Each frame does five things:
- advances the particle velocities by gravity;
- predicts the positions from them;
- projects one strain-energy constraint per tetrahedron onto the positions;
- rebuilds the velocities from the distance the particles moved;
- swaps the current and the previous particle state.

The projection comes in two forms. The first is a sequential Gauss-Seidel sweep (`projectConstraints`). The second is a relaxed sweep in which one worker per chunk of numTetrahedra/4 tetrahedra (four or more workers) sums its corrections into per-particle accumulators that are then applied (`projectConstraintsSOR`). The constraint value is the strain energy that a corotated, inversion-aware St. Venant-Kirchhoff kernel computes (`computeGreenStrainAndPiolaStressInversion`). A GPU variant of the solver flattens the mesh into device buffers, runs the same integrator on the host and leaves the projection to the device.

The model is split into these modules:

- `LinearAlgebra` (linalg.dfy): 3-vectors and 3x3 matrices stored by columns, with the Eigen operations the solver uses.
- `Mesh` (mesh.dfy): particles, tetrahedra, solver settings, and `Numerics`. `Numerics` holds the routines that stay abstract: the eigensolver, square root, the Euclidean norm, the construction of U, and the deformation gradient.
- `Elasticity` (kernel.dfy): both strain/stress/energy kernels, written step by step after the eigendecomposition.
- `Constraint` (constraint.dfy): the shared per-tetrahedron parts, which are the 3x4 constraint gradient, the multiplier's denominator and the kernel call. It also holds `calculateTotalStrainEnergy`.
- `Integrator` (integrator.dfy): `advanceVelocities`, `advancePositions`, `updateVelocities` and the state swap. Each is a loop over an array, proved against a per-particle function. The CPU and GPU solvers share these identical loops.
- `Sequential` (sequential.dfy): `projectConstraints`, in place, proved against a functional pass (`PassFrom`, `Passes`).
- `Relaxed` (relaxed.dfy): `projectConstraintsSOR` and its worker `projectConstraintsSOR_CORE`, in place over the particle array and the two accumulator arrays, proved against `SorIteration` and `SorIterations`.
- `Solver` (solver.dfy): the `PbdSolver` class with its frame counter. Its `AdvanceSystem` is proved equal to the functional frame `Step`, and lemmas state what a frame does to each particle.
- `Gpu` (gpu.dfy): the launch parameters, the `GpuSolver` class with its flattened buffers and setup flag, the host side of `advanceSystem`, and the flatten/unflatten and copy round trips.

Some behaviour is modelled as the code has it:
- The sequential sweep's extra `--t` after a damped tetrahedron skips the next index (`NextIndex`, `PassVisitOrder`).
- A relaxed worker's `t != end` loop with `end = t + stepSize - 1` leaves out the last tetrahedron of each full chunk and always leaves out tetrahedron `numTetrahedra - 1` (`ChunksCover`, `ChunksShape`).
- The apply loop adds a particle's whole accumulated correction once per slot that names it, without dividing by the influence count (`ApplyTetsClosedForm`).
- The influence count decides only whether a free particle moves. After the workers it is the number of slots naming the particle in the deformed tetrahedra they visit, so a particle named only by skipped or unvisited tetrahedra stays put, while one that is visited moves once per slot naming it in any tetrahedron (`SorIterationCounts`, `SorIterationMoves`).
- A configuration at rest is one where every tetrahedron is undeformed or gets zero energy from the kernel, that is, one whose total strain energy is zero (`AtRestIffNoStrainEnergy`). Either projection leaves it where it is whenever its multipliers are finite. The relaxed pass is always finite there, since it replaces 0/0 by zero. The sequential pass has no such guard, so it is promised finite only when every tetrahedron is undeformed (`ProjectAtRest`).
- The kernel's out-parameters are (epsilon, sigma, energy), while every caller binds them to (PF, epsilon, strainEnergy). So the constraint gradient is built from the kernel's strain (`ConstraintGradient`).
- The relaxed denominator uses the column lengths (`lpNorm<2>`), not their squares. So `ProjectionMeetsLinearisedConstraint` is stated for the sequential sweep only.

## Model

| member | source | states |
|---|---|---|
| LinearAlgebra.SquaredNorm | PBD/PBDSolver.cpp:287-288 | a vector's squared length is never negative |
| LinearAlgebra.Transpose | PBD/PBDSolver.cpp:955-956 | entry (r, c) of the transpose is entry (c, r) of the matrix |
| LinearAlgebra.NegateColumn | PBD/PBDSolver.cpp:945-947 | column c is negated and the other two columns are unchanged |
| LinearAlgebra.RowSums | PBD/PBDSolver.cpp:276 | component i of `rowwise().sum()` is the sum of row i |
| LinearAlgebra.FrobeniusSquared | PBD/PBDSolver.cpp:1078-1085 | the sum of squared entries is never negative |
| Elasticity.ClampEigenvalues | PBD/PBDSolver.cpp:916-922 | each eigenvalue becomes max(value, 0), so none is negative |
| Elasticity.SmallestIndex | PBD/PBDSolver.cpp:935-944 | the search from FLT_MAX settles on the first index of a minimal value below FLT_MAX, and on 0 when there is none |
| Elasticity.DetNegateColumn | PBD/PBDSolver.cpp:945-947 | negating one column flips the sign of the determinant |
| Elasticity.FixReflectionMakesRotation | PBD/PBDSolver.cpp:932-948 | after the fix V's determinant is not negative; only the smallest eigenvalue's column can change, and it is negated exactly when det V < 0 |
| Elasticity.FixInversionMakesRotation | PBD/PBDSolver.cpp:1021-1041 | after the fix U's determinant is not negative; when det U < 0, exactly the first smallest singular value and its column of U change sign; otherwise nothing changes |
| Elasticity.FloorSingularValues | PBD/PBDSolver.cpp:1044-1050 | each singular value becomes max(value, 0.577) |
| Elasticity.Decompose | PBD/PBDSolver.cpp:909-1050 | after clamping, the reflection fix, the roots, U, the inversion fix and the floor, every singular value is at least 0.577 |
| Elasticity.Energy | PBD/PBDSolver.cpp:1078-1102 | restVolume (mu \|eps\|_F^2 + lambda/2 trace^2) is not negative when the rest volume and the Lame parameters are not negative |
| Elasticity.DensityNonnegative | PBD/PBDSolver.cpp:1087 | the energy density is not negative for nonnegative Lame parameters |
| Elasticity.GreenStrainAndPiolaStressInversion | PBD/PBDSolver.cpp:901-1116 | the whole inversion-aware kernel (decomposition, principal strains and stresses, recomposition, energy); the energy it returns is never negative for a nonnegative rest volume and nonnegative Lame parameters |
| Elasticity.GreenStrainIsSymmetricGreenStrain | PBD/PBDSolver.cpp:1125-1133 | the strain the plain kernel writes is (F^T F - I)/2 entry by entry, and it is symmetric |
| Elasticity.GreenStrainAndPiolaStress | PBD/PBDSolver.cpp:1119-1150 | epsilon is the Green strain, and the energy is not negative for nonnegative inputs |
| Elasticity.StressFromStrain | PBD/PBDSolver.cpp:1136-1149 | the stress and energy from a given strain; the strain is passed through unchanged and the energy is not negative for nonnegative inputs |
| Elasticity.PlainKernelAtRest | PBD/PBDSolver.cpp:1119-1150 | at F = I, strain, stress and energy are all zero |
| Elasticity.GreenStrainAtIdentity | PBD/PBDSolver.cpp:1125-1133 | the Green strain of the identity is the zero matrix |
| Elasticity.ZeroStrainStress | PBD/PBDSolver.cpp:1136-1149 | zero strain gives zero stress and zero energy for any F |
| Elasticity.StressAtZeroStrain | PBD/PBDSolver.cpp:1136-1142 | zero strain gives zero Piola stress |
| Elasticity.EnergyAtZeroStrain | PBD/PBDSolver.cpp:1144-1149 | zero strain with zero trace has zero energy |
| Constraint.Gradient | PBD/PBDSolver.cpp:272-276 | columns 0..2 of Volume * PF * RefInvT, then minus their sum, so the four columns add up to zero |
| Constraint.ColumnsCancel | PBD/PBDSolver.cpp:276 | three columns plus the negated row sums give the zero vector |
| Constraint.InverseMasses | PBD/PBDSolver.cpp:285-287 | slot j's inverse mass is that of the particle the tetrahedron names in slot j |
| Constraint.DenominatorNonnegative | PBD/PBDSolver.cpp:281-290 | the sum over free slots of w_j * size_j is not negative when all masses and sizes are not negative |
| Constraint.DenominatorStep | PBD/PBDSolver.cpp:286-289 | one more slot adds w_k * size_k to the running denominator when w_k is not zero, and nothing when it is |
| Constraint.PinnedSlotsIgnored | PBD/PBDSolver.cpp:283-290 | a slot whose inverse mass is zero does not affect the denominator |
| Constraint.DenominatorZero | PBD/PBDSolver.cpp:281-290 | a denominator of nonnegative terms is zero exactly when every free slot's size is zero |
| Constraint.SquaredNorms | PBD/PBDSolver.cpp:288 | the squared column lengths that the sequential denominator uses, none negative |
| Constraint.Norms | PBD/PBDSolver.cpp:686 | the column lengths that the relaxed denominator uses |
| Constraint.InversionKernelEnergy | PBD/PBDSolver.cpp:248 | the kernel as the solvers call it never returns a negative energy for nonnegative inputs |
| Constraint.KernelEnergyAt | PBD/PBDSolver.cpp:143 | one kernel call's energy is not negative for nonnegative inputs |
| Constraint.ModelOf | PBD/PBDSolver.cpp:248 | the projection uses the inversion kernel with the settings' mu and lambda and numTetrahedra |
| Constraint.ConstraintGradient | PBD/PBDSolver.cpp:248-276 | the gradient is built from the kernel's first matrix output, and its four columns sum to zero |
| Constraint.StrainEnergyUpTo | PBD/PBDSolver.cpp:116-146 | the sum of kernel energies over the tetrahedra whose F is not the identity; not negative for nonnegative material |
| Constraint.NoStrainEnergy | PBD/PBDSolver.cpp:116-146 | for nonnegative material the energy of tetrahedra 0..k-1 is zero exactly when each is undeformed or of zero energy |
| Constraint.AtRestIffNoStrainEnergy | PBD/PBDSolver.cpp:116-146 | a configuration is at rest exactly when the total strain energy is zero |
| Constraint.CalculateTotalStrainEnergy | PBD/PBDSolver.cpp:96-173 | the loop returns the sum of energies of the non-identity tetrahedra 0..numTetrahedra-1; the sum is not negative for nonnegative material |
| Integrator.AdvancedVelocity | PBD/PBDSolver.cpp:66-72 | v = v_prev + dt w g along y only; nothing else changes; a pinned particle keeps v_prev |
| Integrator.PredictedPosition | PBD/PBDSolver.cpp:79-82 | x - x_prev = dt v; nothing else changes |
| Integrator.ReconstructedVelocity | PBD/PBDSolver.cpp:89-92 | dt v = x - x_prev; nothing else changes |
| Integrator.Swapped | PBD/PBDSolver.cpp:52-56 | the previous position and velocity become the current ones; the current state is kept |
| Integrator.AdvanceAll | PBD/PBDSolver.cpp:66-72 | the velocity step applied to each particle |
| Integrator.PredictAll | PBD/PBDSolver.cpp:79-82 | the position step applied to each particle |
| Integrator.ReconstructAll | PBD/PBDSolver.cpp:89-92 | the velocity rebuild applied to each particle |
| Integrator.SwapAll | PBD/PBDSolver.cpp:52-56 | the swap applied to each particle |
| Integrator.ReconstructInvertsPredict | PBD/PBDSolver.cpp:76-93 | updateVelocities straight after advancePositions gives back the velocity the particle moved with |
| Integrator.ReconstructAllInvertsPredictAll | PBD/PBDSolver.cpp:76-93 | with no projection between them, updateVelocities after advancePositions changes no particle |
| Integrator.AdvanceVelocities | PBD/PBDSolver.cpp:63-73 | the array afterwards is AdvanceAll of the array before (the GPU host loop at 161-172 is the same) |
| Integrator.AdvancePositions | PBD/PBDSolver.cpp:76-83 | the array afterwards is PredictAll of the array before (GPU: 174-183) |
| Integrator.UpdateVelocities | PBD/PBDSolver.cpp:86-93 | the array afterwards is ReconstructAll of the array before (GPU: 185-192) |
| Integrator.SwapStates | PBD/PBDSolver.cpp:52-56 | the array afterwards is SwapAll of the array before |
| Sequential.ApplyUpTo | PBD/PBDSolver.cpp:304-313 | the correction loop over slots 0..k-1 keeps the particle count |
| Sequential.ApplyStep | PBD/PBDSolver.cpp:304-313 | one more slot moves its free vertex by (w lagrangeM) times its column and leaves a pinned vertex alone |
| Sequential.ApplyMovesFreeVerticesOnly | PBD/PBDSolver.cpp:304-313 | the corrections change positions only, never a pinned particle, and never a particle outside the tetrahedron |
| Sequential.ApplyClosedForm | PBD/PBDSolver.cpp:304-313 | with distinct vertices, free vertex j ends at x_j + w_j lagrangeM g_j and a pinned vertex stays |
| Sequential.ApplyClosedFormAt | PBD/PBDSolver.cpp:304-313 | the same closed form for one slot j, by induction on the slots applied |
| Sequential.ApplySlotKeepsOthers | PBD/PBDSolver.cpp:304-313 | applying slot k-1 leaves every particle that slot does not name as it was |
| Sequential.ApplyFirstVisit | PBD/PBDSolver.cpp:304-313 | a slot whose particle no earlier slot names moves it from its starting position by (w lagrangeM) times the slot's column, or not at all when it is pinned |
| Sequential.ApplyKeepsUnnamed | PBD/PBDSolver.cpp:304-313 | a particle none of the first k slots names is where it started |
| Sequential.ProjectTetrahedron | PBD/PBDSolver.cpp:216-318 | an identity-F tetrahedron changes nothing; it is damped exactly when F is not I and the energy exceeds 1e-3 |
| Sequential.ProjectTetrahedronKeepsPinned | PBD/PBDSolver.cpp:216-318 | projecting one tetrahedron changes positions only, and no pinned particle |
| Sequential.SharesSum | PBD/PBDSolver.cpp:281-301 | the shares (w_j lagrangeM) size_j of the free slots, with nothing for pinned ones, add up to lagrangeM times the denominator |
| Sequential.ShareAlongGradient | PBD/PBDSolver.cpp:304-313 | a slot moved along its column contributes (w_j lagrangeM) \|g_j\|^2 to g . dx, and a pinned slot contributes nothing |
| Sequential.SharesAlongGradient | PBD/PBDSolver.cpp:304-313 | when every slot moved along its column, the four contributions to g . dx are exactly those shares |
| Sequential.ApplyMovesAlongGradient | PBD/PBDSolver.cpp:304-313 | with distinct vertices, every free slot's vertex moves by (w_j lagrangeM) g_j and every pinned one stays put |
| Sequential.ApplyMeetsLinearisedConstraint | PBD/PBDSolver.cpp:281-313 | with distinct vertices, the corrections change the constraint to first order by lagrangeM times the denominator |
| Sequential.ProjectionMeetsLinearisedConstraint | PBD/PBDSolver.cpp:266-313 | with distinct vertices and a nonzero denominator, sum_j g_j . dx_j is minus the (damped) energy, so the projection cancels the constraint to first order |
| Sequential.LinearisedCancelsEnergy | PBD/PBDSolver.cpp:281-313 | with distinct vertices and lagrangeM d = -E, the corrections change the constraint to first order by exactly -E |
| Sequential.PassFrom | PBD/PBDSolver.cpp:214-319 | one pass from index t down keeps the particle count |
| Sequential.PassVisitOrder | PBD/PBDSolver.cpp:214-318 | a pass from t visits t first and then each next index by --t (a second --t after a damped one), stays within 0..t, and stops below zero |
| Sequential.FirstVisitDamping | PBD/PBDSolver.cpp:266-270 | the first visit is damped exactly when F is not I and the kernel energy exceeds 1e-3 |
| Sequential.PassKeepsPinned | PBD/PBDSolver.cpp:214-319 | a pass changes positions only and no pinned particle |
| Sequential.Passes | PBD/PBDSolver.cpp:211-325 | numConstraintIts passes keep the particle count |
| Sequential.RunCount | PBD/PBDSolver.cpp:211-319 | there are exactly max(numConstraintIts, 0) passes |
| Sequential.RunShape | PBD/PBDSolver.cpp:211-319 | every pass visits from numTetrahedra-1 down in the order above |
| Sequential.RunKeepsPinned | PBD/PBDSolver.cpp:211-325 | the whole projection changes positions only and no pinned particle |
| Sequential.ApplyZeroMultiplier | PBD/PBDSolver.cpp:304-313 | a zero multiplier moves no vertex |
| Sequential.ProjectTetrahedronAtRest | PBD/PBDSolver.cpp:216-318 | a tetrahedron storing no strain energy is not damped and, when its multiplier is finite, moves nothing |
| Sequential.PassAtRest | PBD/PBDSolver.cpp:213-319 | a pass over a configuration at rest (every tetrahedron undeformed or of zero energy) leaves every particle where it is when finite, and is finite when every tetrahedron is undeformed |
| Sequential.RunAtRest | PBD/PBDSolver.cpp:211-325 | all passes over a configuration at rest leave every particle where it is when finite, and are finite when every tetrahedron is undeformed |
| Sequential.ProjectTetrahedronInPlace | PBD/PBDSolver.cpp:216-318 | the array afterwards and the returned repeat flag are those of ProjectTetrahedron |
| Sequential.Denominator | PBD/PBDSolver.cpp:281-290 | the loop returns DenominatorUpTo over the squared column lengths |
| Sequential.ApplyCorrections | PBD/PBDSolver.cpp:304-313 | the array afterwards is ApplyUpTo over all four slots |
| Sequential.SweepInPlace | PBD/PBDSolver.cpp:213-319 | the array after the tetrahedron loop is the particles of PassFrom from the last tetrahedron |
| Sequential.ProjectConstraints | PBD/PBDSolver.cpp:177-331 | the array afterwards is the particles of Passes(numConstraintIts) |
| Relaxed.Chunks | PBD/PBDSolver.cpp:546-567 | every chunk handed to a worker lies within 0..numTetrahedra |
| Relaxed.ChunksFromWithin | PBD/PBDSolver.cpp:550-567 | chunks from any start lie within 0..n |
| Relaxed.ChunksFromStarts | PBD/PBDSolver.cpp:550-567 | no chunk starts before the loop's t |
| Relaxed.ChunksFromDisjoint | PBD/PBDSolver.cpp:550-567 | each chunk ends before the next one starts |
| Relaxed.ChunksFromCover | PBD/PBDSolver.cpp:550-567 | tetrahedron i is visited exactly when k*step <= i < n-1, unless i+1 is a multiple of step and i < n-2 |
| Relaxed.ChunksFromCount | PBD/PBDSolver.cpp:550-567 | the loop from t hands out one chunk per start t, t+step, ... below n |
| Relaxed.ChunksCount | PBD/PBDSolver.cpp:546-567 | one worker per chunk of n/4 tetrahedra: ceil(n/(n/4)) of them, at least four, and exactly four when 4 divides n |
| Relaxed.ChunksCover | PBD/PBDSolver.cpp:544-567 | one iteration visits i exactly when 0 <= i < n-1, unless (i+1) % (n/4) == 0 and i < n-2 |
| Relaxed.ChunksShape | PBD/PBDSolver.cpp:544-567 | no tetrahedron is visited twice, and tetrahedron n-1 is never visited |
| Relaxed.SlotRefs | PBD/PBDSolver.cpp:702-712 | the number of slots naming a particle is at most the number of slots |
| Relaxed.ScatterUpTo | PBD/PBDSolver.cpp:701-712 | the scatter keeps both accumulators' lengths |
| Relaxed.ScatterCounts | PBD/PBDSolver.cpp:701-712 | a free particle's count grows by the slots naming it and a pinned one's does not; untouched entries keep their sums |
| Relaxed.AccumulateTet | PBD/PBDSolver.cpp:622-712 | one tetrahedron's contribution keeps the accumulators' lengths, and an identity-F tetrahedron contributes nothing |
| Relaxed.AccumulateTetCounts | PBD/PBDSolver.cpp:701-712 | a deformed tetrahedron adds its slot references to each free particle's count and nothing to pinned ones |
| Relaxed.AccumulateFrom | PBD/PBDSolver.cpp:622-713 | a worker's range keeps the accumulators' lengths |
| Relaxed.AccumulateChunks | PBD/PBDSolver.cpp:550-569 | all workers' chunks keep the accumulators' lengths |
| Relaxed.AccumulateFromCounts | PBD/PBDSolver.cpp:622-713 | after a worker's range a free particle's count has grown by the slots naming it in the deformed tetrahedra of the range (DeformedRefs), and a pinned particle's count is unchanged |
| Relaxed.AccumulateChunksCounts | PBD/PBDSolver.cpp:550-569 | after all workers a free particle's count has grown by its references in every worker's range (ChunkRefs), and a pinned particle's count is unchanged |
| Relaxed.ChunkRefsVisited | PBD/PBDSolver.cpp:550-569 | over disjoint ranges, adding each worker's references counts every visited deformed tetrahedron exactly once (VisitedRefs) |
| Relaxed.ApplySlotsUpTo | PBD/PBDSolver.cpp:573-585 | the apply loop for one tetrahedron keeps the particle count |
| Relaxed.ApplyTetsUpTo | PBD/PBDSolver.cpp:571-586 | the apply loop over tetrahedra keeps the particle count |
| Relaxed.ApplySlotsClosedForm | PBD/PBDSolver.cpp:573-585 | a free particle with a nonzero count moves by its accumulated correction times the number of slots naming it; others stay |
| Relaxed.ApplyTetsClosedForm | PBD/PBDSolver.cpp:571-586 | the whole apply loop moves a free particle with a nonzero count by its correction once per slot naming it (not divided by the count); others stay |
| Relaxed.Reset | PBD/PBDSolver.cpp:536-540 | the entries of the particles are zeroed, later entries are kept, and lengths are unchanged |
| Relaxed.SorIteration | PBD/PBDSolver.cpp:533-592 | reset, accumulate, apply keeps the particle count and the accumulator lengths |
| Relaxed.SorIterations | PBD/PBDSolver.cpp:533-592 | numConstraintIts iterations keep the particle count and accumulator lengths |
| Relaxed.SorIterationKeepsPinnedAt | PBD/PBDSolver.cpp:571-586 | an iteration changes only the position of particle i, and leaves it alone when it is pinned |
| Relaxed.SorIterationKeepsPinned | PBD/PBDSolver.cpp:571-586 | an iteration changes positions only and no pinned particle |
| Relaxed.SorIterationsKeepPinnedAt | PBD/PBDSolver.cpp:533-592 | all iterations change only the position of particle i, and leave it alone when it is pinned |
| Relaxed.SorIterationsKeepPinned | PBD/PBDSolver.cpp:533-592 | all iterations change positions only and no pinned particle |
| Relaxed.SorIterationCounts | PBD/PBDSolver.cpp:536-569 | after the reset and the workers, a free particle's influence count is the number of slots naming it in the deformed tetrahedra some worker visits, and a pinned particle's count is zero |
| Relaxed.SorIterationMoves | PBD/PBDSolver.cpp:536-586 | one iteration moves a free particle named by a visited deformed tetrahedron by its accumulated correction once per slot naming it in any tetrahedron, and leaves every other particle where it was |
| Relaxed.ScatterZeroMultiplier | PBD/PBDSolver.cpp:701-712 | a zero multiplier adds nothing to any accumulated correction |
| Relaxed.AccumulateTetAtRest | PBD/PBDSolver.cpp:680-712 | a tetrahedron storing no strain energy has a finite multiplier (0/0 becomes 0) and adds nothing to the corrections |
| Relaxed.AccumulateFromAtRest | PBD/PBDSolver.cpp:622-713 | over a configuration at rest a worker's range adds nothing to the corrections |
| Relaxed.AccumulateChunksAtRest | PBD/PBDSolver.cpp:550-569 | over a configuration at rest all workers together add nothing to the corrections |
| Relaxed.SorIterationAtRest | PBD/PBDSolver.cpp:536-586 | an iteration over a configuration at rest (every tetrahedron undeformed or of zero energy) moves no particle and is finite |
| Relaxed.SorIterationsAtRest | PBD/PBDSolver.cpp:533-592 | all iterations over a configuration at rest leave every particle where it is and are finite |
| Relaxed.ScatterStep | PBD/PBDSolver.cpp:704-711 | one more slot adds (w lagrangeM) g_j and 1 to a free particle's entries and nothing for a pinned one |
| Relaxed.NormDenominator | PBD/PBDSolver.cpp:679-688 | the loop returns DenominatorUpTo over the column lengths |
| Relaxed.Scatter | PBD/PBDSolver.cpp:701-712 | the accumulator arrays afterwards are ScatterUpTo of those before |
| Relaxed.AccumulateTetInPlace | PBD/PBDSolver.cpp:622-712 | the accumulator arrays afterwards are AccumulateTet of those before |
| Relaxed.ProjectConstraintsSORCore | PBD/PBDSolver.cpp:601-715 | the accumulator arrays afterwards are AccumulateFrom(start, end) of those before |
| Relaxed.ResetAccumulators | PBD/PBDSolver.cpp:536-540 | the accumulator arrays afterwards are Reset of those before |
| Relaxed.ApplySlotsStep | PBD/PBDSolver.cpp:576-583 | one more slot of the apply loop, unfolded |
| Relaxed.ApplySlots | PBD/PBDSolver.cpp:573-585 | the particle array afterwards is ApplySlotsUpTo of the array before |
| Relaxed.AccumulateFirstChunk | PBD/PBDSolver.cpp:550-567 | the chunks from t are the chunk (t, end) followed by the chunks from t+step |
| Relaxed.RunChunk | PBD/PBDSolver.cpp:552-566 | handing out the chunk at t advances the accumulators along AccumulateChunks and returns the next chunk start, t + stepSize |
| Relaxed.RunChunks | PBD/PBDSolver.cpp:544-569 | the accumulator arrays afterwards are AccumulateChunks over Chunks(numTetrahedra) |
| Relaxed.ApplyAll | PBD/PBDSolver.cpp:571-586 | the particle array afterwards is ApplyTetsUpTo over all tetrahedra |
| Relaxed.SorIterationInPlace | PBD/PBDSolver.cpp:533-592 | the arrays afterwards are those of SorIteration |
| Relaxed.ProjectConstraintsSOR | PBD/PBDSolver.cpp:500-598 | the arrays afterwards are those of SorIterations(numConstraintIts) |
| Solver.Project | PBD/PBDSolver.cpp:37-45 | the projection keeps the particle count, and the sequential pass leaves the accumulators alone |
| Solver.ProjectKeepsPinned | PBD/PBDSolver.cpp:37-45 | either pass changes positions only and no pinned particle |
| Solver.ProjectAtRest | PBD/PBDSolver.cpp:37-45 | over a configuration at rest the projection moves nothing when finite; the relaxed one is always finite, the sequential one when every tetrahedron is undeformed |
| Solver.Predicted | PBD/PBDSolver.cpp:30-34 | velocities advanced, then positions predicted, keeping the particle count |
| Solver.Step | PBD/PBDSolver.cpp:26-59 | a frame keeps the particle count |
| Solver.StepState | PBD/PBDSolver.cpp:26-59 | after a frame the previous state equals the current one, inverse masses are kept, and dt v equals the displacement from the frame's starting previous position |
| Solver.StepPinned | PBD/PBDSolver.cpp:26-59 | a pinned particle moves by dt v_prev and keeps v_prev |
| Solver.StepUnconstrained | PBD/PBDSolver.cpp:26-59 | with no constraint iterations a particle follows symplectic Euler: v = v_prev + dt w g along y, x = x_prev + dt v |
| Solver.PbdSolver.constructor | PBD/PBDSolver.cpp:15-18 | the frame counter starts at 0 |
| Solver.PbdSolver.AdvanceSystem | PBD/PBDSolver.cpp:26-59 | the particle and accumulator arrays afterwards are those of Step, and the frame counter goes up by one |
| Gpu.PaddedCount | CINDER/TissueSimulator/vc2012/PBDGPU_Solver.cpp:28-30 | the padded count is a multiple of 64, more than n and at most n + 64 (a whole extra block when 64 divides n) |
| Gpu.LaunchGlobals.DetermineLaunchParameters | CINDER/TissueSimulator/vc2012/PBDGPU_Solver.cpp:21-36 | sets the true count, 64 threads per block, n/64 + 1 blocks, and a padded count that is a multiple of 64 above n |
| Gpu.ConcatLength | CINDER/TissueSimulator/vc2012/PBDGPU_Solver.cpp:46-62 | pushing blocks of width w gives w times the number of blocks |
| Gpu.ConcatAt | CINDER/TissueSimulator/vc2012/PBDGPU_Solver.cpp:46-62 | entry w*i + j of the pushed buffer is entry j of block i |
| Gpu.IndexBlocks | CINDER/TissueSimulator/vc2012/PBDGPU_Solver.cpp:56-62 | block i is tetrahedron i's four vertex indices |
| Gpu.SlotMasses | CINDER/TissueSimulator/vc2012/PBDGPU_Solver.cpp:48-51 | entry j is the inverse mass of the particle in slot j |
| Gpu.MassBlocks | CINDER/TissueSimulator/vc2012/PBDGPU_Solver.cpp:46-52 | block i is tetrahedron i's four slot masses |
| Gpu.Volumes | CINDER/TissueSimulator/vc2012/PBDGPU_Solver.cpp:66-69 | entry i is tetrahedron i's rest volume |
| Gpu.ShapeEntries | CINDER/TissueSimulator/vc2012/PBDGPU_Solver.cpp:73-85 | one reference shape matrix contributes exactly nine entries |
| Gpu.ShapeEntryAt | CINDER/TissueSimulator/vc2012/PBDGPU_Solver.cpp:75-85 | entry 3r + c is entry (r, c) of the transposed reference shape matrix |
| Gpu.ShapeBlocks | CINDER/TissueSimulator/vc2012/PBDGPU_Solver.cpp:73-88 | block i is tetrahedron i's nine transposed entries |
| Gpu.ShapeRoundTrip | CINDER/TissueSimulator/vc2012/PBDGPU_Solver.cpp:75-85 | reading the nine entries back gives the reference shape matrix |
| Gpu.FlatLayout | CINDER/TissueSimulator/vc2012/PBDGPU_Solver.cpp:46-88 | entry 4i+j of the index and mass buffers and entry 9i+3r+c of the shape buffer belong to tetrahedron i |
| Gpu.FlattenRoundTrip | CINDER/TissueSimulator/vc2012/PBDGPU_Solver.cpp:55-88 | unflattening tetrahedron i from the three buffers gives tetrahedron i back |
| Gpu.Resized | CINDER/TissueSimulator/vc2012/PBDGPU_Solver.cpp:90 | `resize` keeps the first entries and pads with zeros |
| Gpu.FreshSetupLengths | CINDER/TissueSimulator/vc2012/PBDGPU_Solver.cpp:39-96 | on a fresh solver the buffers have 4n, 4n, n and 9n entries, and the position buffer 4n zeros |
| Gpu.FreshSetupRoom | CINDER/TissueSimulator/vc2012/PBDGPU_Solver.cpp:39-96 | after setup on a fresh solver the position buffer has room for the copy loops' 3 entries per particle exactly when 3 particles <= 4 tetrahedra |
| Gpu.CopyIn | CINDER/TissueSimulator/vc2012/PBDGPU_Solver.cpp:112-118 | copying positions in keeps the buffer length |
| Gpu.CopyInAt | CINDER/TissueSimulator/vc2012/PBDGPU_Solver.cpp:112-118 | entries 3i, 3i+1, 3i+2 hold particle i's position |
| Gpu.CopyBack | CINDER/TissueSimulator/vc2012/PBDGPU_Solver.cpp:135-141 | copying positions back keeps the particle count |
| Gpu.CopyBackMovesPositionsOnly | CINDER/TissueSimulator/vc2012/PBDGPU_Solver.cpp:135-141 | only positions change, and particle i's is read from entries 3i..3i+2 |
| Gpu.CopyRoundTrip | CINDER/TissueSimulator/vc2012/PBDGPU_Solver.cpp:112-141 | copying positions in and back gives the particles unchanged |
| Gpu.CopyBackRoundTrip | CINDER/TissueSimulator/vc2012/PBDGPU_Solver.cpp:112-141 | copying back and in again gives the buffer unchanged |
| Gpu.DeviceRun | CINDER/TissueSimulator/vc2012/PBDGPU_Solver.cpp:129-130 | the device call keeps the position buffer's length |
| Gpu.GpuSolver.constructor | CINDER/TissueSimulator/vc2012/PBDGPU_Solver.cpp:10-13 | a new solver is not set up and its buffers are empty |
| Gpu.GpuSolver.PushSlotMasses | CINDER/TissueSimulator/vc2012/PBDGPU_Solver.cpp:48-51 | the mass buffer gains one tetrahedron's four slot masses in slot order; nothing else changes |
| Gpu.GpuSolver.PushSlotIndices | CINDER/TissueSimulator/vc2012/PBDGPU_Solver.cpp:58-61 | the index buffer gains one tetrahedron's four vertex indices in slot order; nothing else changes |
| Gpu.GpuSolver.PushTransposed | CINDER/TissueSimulator/vc2012/PBDGPU_Solver.cpp:78-85 | the shape buffer gains the nine entries of the transpose, row by row; nothing else changes |
| Gpu.GpuSolver.AppendInverseMasses | CINDER/TissueSimulator/vc2012/PBDGPU_Solver.cpp:45-52 | the mass buffer gains the slot masses, tetrahedron by tetrahedron; nothing else changes |
| Gpu.GpuSolver.AppendIndices | CINDER/TissueSimulator/vc2012/PBDGPU_Solver.cpp:55-62 | the index buffer gains the vertex indices; nothing else changes |
| Gpu.GpuSolver.AppendVolumes | CINDER/TissueSimulator/vc2012/PBDGPU_Solver.cpp:65-69 | the volume buffer gains the rest volumes; nothing else changes |
| Gpu.GpuSolver.AppendReferenceShapes | CINDER/TissueSimulator/vc2012/PBDGPU_Solver.cpp:71-88 | the shape buffer gains nine transposed entries per tetrahedron; nothing else changes |
| Gpu.GpuSolver.Setup | CINDER/TissueSimulator/vc2012/PBDGPU_Solver.cpp:39-96 | launch parameters from the tetrahedron count; the four buffers extended; positions resized to the mass buffer's length; the setup flag set |
| Gpu.GpuSolver.CopyPositionsIn | CINDER/TissueSimulator/vc2012/PBDGPU_Solver.cpp:111-118 | the position buffer afterwards is CopyIn of the buffer before; nothing else changes |
| Gpu.GpuSolver.CopyPositionsOut | CINDER/TissueSimulator/vc2012/PBDGPU_Solver.cpp:132-141 | the particle array afterwards is CopyBack of the array before |
| Gpu.GpuSolver.AdvanceSystem | CINDER/TissueSimulator/vc2012/PBDGPU_Solver.cpp:99-153 | without setup one error line, otherwise none; the launch settings are copied; the device sees the predicted positions; the particles are the swapped, rebuilt device result; the buffers other than positions are unchanged |

## Left out

- Floating point: the model computes over the reals. `float` rounding, `sqrtf`, `log`, FLT_MAX arithmetic and overflow are not modelled. Divisions that would produce NaN or infinity are excluded by a finiteness requirement instead. In the sequential sweep the requirement covers a zero denominator with a free vertex. In the relaxed sweep it covers a nonzero energy over a zero denominator; 0/0 becomes 0 there, as the NaN test makes it.
- Sequential.ProjectTetrahedron: the multiplier is taken as 0 when the denominator is 0. That case only matters for a tetrahedron whose vertices are all pinned, or in a run already marked not finite, and the NaN the source would produce is not modelled.
- The eigensolver, `sqrtf`, `lpNorm<2>`, the construction of U from F, V and the singular values (including its near-zero singular value branch), and `getDeformationGradient` are fields of `Numerics`. They are parameters with no properties assumed.
- `isIdentity()` is exact equality with I, without Eigen's tolerance. The second identity test inside the relaxed worker (after the first) never changes the outcome and is folded into the first.
- The unused locals (`FInverseTranspose`, `I1`, `I3`, `logI3`) and the degenerate-volume message in the relaxed worker are not modelled, because they affect no state.
- Threads and the mutex: the workers (one per chunk, four or more) run one after the other in chunk order. Over the reals, the sum of whole-tetrahedron scatters does not depend on their interleaving. Worker scheduling and float non-associativity are not captured.
- Relaxed.ProjectConstraintsSOR, Relaxed.SorIteration: require zero or at least four tetrahedra. For one to three tetrahedra the step size is 0 and the source's chunk loop never ends.
- Integrator.UpdateVelocities and the frame functions require a nonzero time step; the source divides by it.
- Gpu.GpuSolver.AdvanceSystem: requires the position buffer to hold three entries per particle, as the copy loops at PBDGPU_Solver.cpp:112-118 and 135-141 need. Setup sizes that buffer to four entries per tetrahedron (Gpu.FreshSetupRoom), so after a normal setup the requirement is 3 x particles <= 4 x tetrahedra, which the source never checks. When it fails (a cube split into 5 tetrahedra has 8 particles: 24 coordinates for 20 entries), or when setup was skipped, the source writes and reads past the buffer. That overrun is not modelled.
- Gpu.GpuSolver.AdvanceSystem: `settings.calculateMu()`/`calculateLambda()` are not modelled (Parameters.h is not part of this model), so mu and lambda stay as passed. The CUDA kernel `CUDA_projectConstraints` is a parameter (`DeviceKernel`) that gives each position entry's new value. `queryCUDADevices` and all console output are left out.
- Gpu.LaunchGlobals: the CUDA launch globals are a class of their own, because CUDA_WRAPPER.h is not part of this model.
- Strain-energy reporting: the file and console output in `projectConstraints`, `projectConstraintsSOR` and `calculateTotalStrainEnergy` is left out. The `printStrainEnergy` branches only print, so they change no state. `printError` becomes the returned list of error lines.
- `projectConstraintsOLD`, `correctInversion`, and the destructors' console messages are not called from the modelled paths and are left out.
- `swapStates` and `getDeformationGradient` belong to PBDParticle and PBDTetrahedra3d, which are not part of this model. The swap is modelled as copying the current state into the previous one.
- Sequential.ProjectionMeetsLinearisedConstraint: stated for tetrahedra with four distinct vertices only. With repeated vertices the corrections compound and no closed form is given.
