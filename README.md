# Cell simulation step, modelled in Dafny

`simple_cell_sim` moves point-like cells in the plane under pairwise forces.
One call of `timestep` does the following:

- It builds the displacement and distance matrices of the cells (`get_dists`).
- For every force term it evaluates a scalar force law on the distances and adds optional clipped Gaussian noise.
- It zeroes the pairs outside the term's distance band and the pairs its interaction mask rules out.
- It projects the scalar forces on the x and y displacements, never on the diagonal, and adds the row sums into an n×2 force accumulator.
- Finally it moves every cell one explicit Euler step, `pos + delta_t * force`.

The force laws (`f_Hooke`, `f_expdecay`, `f_expneg`, `f_anharmonic`) and the potentials they come from (`pot_*`) are pure elementwise formulas.

The project has these modules:

- `Matrices` (`matrices.dfy`): matrices as sequences of rows, NumPy's elementwise comparisons, and finite sums. It proves that the entries of an antisymmetric matrix add up to zero.
- `RealMath` (`real_math.dfy`): `sqrt`, `exp` and `pow` as parameters, and the laws each property assumes of them.
- `Distances` (`distances.dfy`): `get_dists` and the properties of its result.
- `ForceFuncs` and `PotentialFuncs` (`force_funcs.dfy`, `potential_funcs.dfy`): the formulas, entry by entry and as matrices, and how they relate to each other.
- `Simulation` (`simulation.dfy`): the specification of one step as functions (`NetForce`, `EulerStep`), and `Timestep`, the imperative step. `Timestep` works over `array2<real>` buffers. Each in-place statement of the term loop (lines 113-138 of `simulation.py`) becomes a small method, and the step is proved equal to the specification. The vectorised expressions outside that loop are functions: the distances (`GetDists`), the self-mask (`SelfRefMask`) and the update (`EulerStep`).
- `SimulationProperties` (`simulation_props.dfy`): what a step promises beyond that:
  - excluded pairs feel nothing;
  - a lone cell stays put;
  - zero force laws without noise move nothing;
  - a positive force pulls a cell toward its neighbour;
  - when every term has a symmetric law, a symmetric mask (or none) and no noise (or a symmetric noise sample), each pair's forces are equal and opposite (Newton's third law), so the forces add up to zero and the centroid stays fixed. Independent noise draws or an asymmetric `state_mask` break this;
  - the worked two-cell Hooke example.

Conventions the code fixes and the model follows:

- Sign of the force. `x_dist[i][j] = pos[j].x - pos[i].x`, so a positive scalar force moves cell i toward cell j, i.e. it attracts, and a negative one pushes the cells apart. `PositiveForcePullsTogether` and `TwoCellHookeExample` state this.
- `pot_expneg`. Its docstring (simple_cell_sim/potential_funcs.py:61-62, 69) says the potential is `-pot0` at `dist0`. The code computes `pot0 - pot0 * exp(...)`, which is 0 there. The model follows the code (`ExpNegIsShiftedDecay`). The two differ only by the constant `pot0`, so `f_expneg` is the slope of either.
- Negative noise bound. A noise bound below zero makes the two masked assignments send every sample to `-rnd_bound`. `Clip` states this.

Things the model takes as parameters:

- The caller supplies one raw noise sample matrix per term. It stands for `np.random.normal(0.0, rnd_stdev, shape)` and is used only when the term has a noise level.
- `sqrt`, `exp` and `pow` are the three fields of `Maths`.

## Model

| member | source | states |
|---|---|---|
| Distances.GetDists | simple_cell_sim/simulation.py:37-41 | the three matrices are n×n; `x[i][j] = pos[j].x - pos[i].x` and `y[i][j] = pos[j].y - pos[i].y`, so both are antisymmetric with a zero diagonal; `d[i][j]` is the root of the squared displacement length |
| Distances.DistanceProperties | simple_cell_sim/simulation.py:41 | given a lawful square root, `d[i][j]` is non-negative; its square is `x² + y²`; it equals `d[j][i]`; it is 0 between cells at the same place, in particular on the diagonal |
| Distances.DistanceSymmetric | simple_cell_sim/simulation.py:37-41 | the distance matrix is symmetric for any square-root function, because swapping the cells negates both displacements |
| ForceFuncs.HookeForce | simple_cell_sim/force_funcs.py:33 | for `k != 0` the force is 0 exactly at `dist0`; for `k > 0` it is positive exactly above `dist0` and negative exactly below |
| ForceFuncs.AnharmonicForce | simple_cell_sim/force_funcs.py:107-108 | the force is 0 wherever the distance is not positive, so it never divides by zero |
| ForceFuncs.ExpDecayForce | simple_cell_sim/force_funcs.py:55 | the decay force `-e*pot0*exp(-e*(d - dist0))` is `-e*pot0` at `dist0` when `exp(0) = 1`, and 0 when `pot0` is 0 |
| ForceFuncs.ExpNegForce | simple_cell_sim/force_funcs.py:77 | the negative-exponential force `e*pot0*exp(-e*(d - dist0))` is `e*pot0` at `dist0` when `exp(0) = 1`, and 0 when `pot0` is 0 |
| ForceFuncs.FHooke | simple_cell_sim/force_funcs.py:33 | the result has the shape of `dist`, and entry (i, j) is the Hooke force of `dist[i][j]` alone |
| ForceFuncs.FExpDecay | simple_cell_sim/force_funcs.py:55 | the result has the shape of `dist`, and entry (i, j) is the decay force of `dist[i][j]` alone |
| ForceFuncs.FExpNeg | simple_cell_sim/force_funcs.py:77 | the result has the shape of `dist`, and entry (i, j) is the negative-exponential force of `dist[i][j]` alone |
| ForceFuncs.FAnharmonic | simple_cell_sim/force_funcs.py:107-108 | the result has the shape of `dist`; entry (i, j) depends on `dist[i][j]` alone; it is 0 wherever `dist[i][j] <= 0` |
| ForceFuncs.ExpDecayNegatesExpNeg | simple_cell_sim/force_funcs.py:55-77 | with equal parameters, `f_expdecay` is the entrywise negation of `f_expneg` |
| ForceFuncs.ExpForceSigns | simple_cell_sim/force_funcs.py:55-77 | with a positive `exp`, `f_expneg` has the sign of `e*pot0` and `f_expdecay` the opposite sign; at `dist0` they equal `e*pot0` and `-e*pot0` |
| ForceFuncs.AnharmonicForceAtRest | simple_cell_sim/force_funcs.py:108 | at `dist0 > 0` the anharmonic force is `pot0*(e1 - m*e2)/dist0` |
| PotentialFuncs.HookePotential | simple_cell_sim/potential_funcs.py:33 | the spring energy is non-negative for `k >= 0` and 0 at `dist0` |
| PotentialFuncs.AnharmonicPotential | simple_cell_sim/potential_funcs.py:111-112 | the anharmonic energy is 0 wherever the distance is not positive |
| PotentialFuncs.ExpDecayPotential | simple_cell_sim/potential_funcs.py:55 | the decay energy `pot0*exp(-e*(d - dist0))` is `pot0` at `dist0` when `exp(0) = 1`, and 0 when `pot0` is 0 |
| PotentialFuncs.ExpNegPotential | simple_cell_sim/potential_funcs.py:78 | the negative-exponential energy `pot0 - pot0*exp(-e*(d - dist0))` is 0 at `dist0` when `exp(0) = 1`, and 0 everywhere when `pot0` is 0 |
| PotentialFuncs.PotHooke | simple_cell_sim/potential_funcs.py:33 | the result has the shape of `dist`, and entry (i, j) is the spring energy of `dist[i][j]` alone |
| PotentialFuncs.PotExpDecay | simple_cell_sim/potential_funcs.py:55 | the result has the shape of `dist`, and entry (i, j) is the decay energy of `dist[i][j]` alone |
| PotentialFuncs.PotExpNeg | simple_cell_sim/potential_funcs.py:78 | the result has the shape of `dist`, and entry (i, j) is the negative-exponential energy of `dist[i][j]` alone |
| PotentialFuncs.PotAnharmonic | simple_cell_sim/potential_funcs.py:111-112 | the result has the shape of `dist`; entry (i, j) depends on `dist[i][j]` alone; it is 0 wherever `dist[i][j] <= 0` |
| PotentialFuncs.HookeEnergyChange | simple_cell_sim/potential_funcs.py:33 | `pot_Hooke(d+h) - pot_Hooke(d) = h*f_Hooke(d) + k*h²/2` exactly, so Hooke's force is the slope of its potential |
| PotentialFuncs.ExpDecayAtRest | simple_cell_sim/potential_funcs.py:55 | the decay potential is `pot0` at `dist0` |
| PotentialFuncs.ExpNegIsShiftedDecay | simple_cell_sim/potential_funcs.py:78 | `pot_expneg = pot0 - pot_expdecay`, so it is 0 at `dist0` (not `-pot0` as its docstring says) |
| PotentialFuncs.ExpForcesFollowPotentials | simple_cell_sim/potential_funcs.py:55-78 | `f_expdecay = -e * pot_expdecay` and `f_expneg = e * (pot0 - pot_expneg)`, tying each exponential force to its potential |
| PotentialFuncs.AnharmonicAtRest | simple_cell_sim/potential_funcs.py:112 | at `dist0 > 0` the anharmonic energy is `-pot0*(1 - m)` |
| Simulation.EvalForce | simple_cell_sim/simulation.py:113 | `force_func(dist, *force_params)`: every built-in law gives a matrix of the shape of `dist`; the anharmonic law is 0 where the distance is not positive; Hooke's law with `k != 0` is 0 exactly where the distance equals `dist0` |
| Simulation.Clip | simple_cell_sim/simulation.py:119-120 | for a bound `b >= 0` the result lies in `[-b, b]`; a sample inside is unchanged; one above becomes `b` and one below becomes `-b`; for `b < 0` every sample becomes `-b` |
| Simulation.AddedNoise | simple_cell_sim/simulation.py:116-121 | no noise level adds 0, even with a bound; a level without a bound adds the raw sample; with a non-negative bound the noise lies within it; samples already inside the bound are kept |
| Simulation.Allowed | simple_cell_sim/simulation.py:128-129 | no mask allows every pair; a mask allows a pair exactly where it is true |
| Simulation.Gate | simple_cell_sim/simulation.py:121-129 | a pair below `min_range`, above `max_range` or masked out gets exactly 0, noise included; a pair inside the band, bounds included, and allowed gets the raw force plus the noise |
| Simulation.ScalarForces | simple_cell_sim/simulation.py:113-129 | the term's scalar force is n×n, and each entry is the gated raw force and noise of that pair |
| Simulation.Projected | simple_cell_sim/simulation.py:133-134 | one entry of the guarded divide: 0 on the diagonal whatever the scalar force there, 0 where the scalar force or the displacement is 0, else `F*disp/dist` |
| Simulation.Components | simple_cell_sim/simulation.py:132-134 | row i of the projected forces has n entries, each the pair's projection (0 on the diagonal) |
| Simulation.TermForce | simple_cell_sim/simulation.py:132-138 | one term gives one (y, x) force per cell |
| Simulation.AddFields | simple_cell_sim/simulation.py:137-138 | force fields add cell by cell and axis by axis |
| Simulation.NetForce | simple_cell_sim/simulation.py:106-109 | the net force has one entry per cell: the zero field plus every term's force in turn |
| Simulation.EulerStep | simple_cell_sim/simulation.py:141 | every cell moves by `delta_t` times its force, on each axis |
| Simulation.SelfRefMask | simple_cell_sim/simulation.py:103 | the self-mask is n×n and true exactly off the diagonal |
| Simulation.FromMatrix | simple_cell_sim/simulation.py:113 | a fresh n×n array holding the matrix |
| Simulation.AssignWhere | simple_cell_sim/simulation.py:119-129 | `a[cond] = v`: entries where `cond` holds become `v`; the others keep their old value |
| Simulation.AddInto | simple_cell_sim/simulation.py:121 | `forces += random_forces`, entry by entry |
| Simulation.DivideWhere | simple_cell_sim/simulation.py:133-134 | where the mask holds, the entry becomes `num*disp/dist`; elsewhere it keeps its old value; the mask guarantees a nonzero divisor |
| Simulation.AddRowSums | simple_cell_sim/simulation.py:137-138 | one accumulator column gains each row's sum; the other columns are unchanged |
| Simulation.RandomForces | simple_cell_sim/simulation.py:116-120 | the noise array holds the added noise of every sample, clipped when the term has a bound |
| Simulation.CutOff | simple_cell_sim/simulation.py:124-129 | entries outside the band or masked out become 0; the others are unchanged |
| Simulation.TermScalarForces | simple_cell_sim/simulation.py:113-129 | the in-place steps give exactly `ScalarForces` |
| Simulation.ProjectOnAxis | simple_cell_sim/simulation.py:132-134 | row i of the zeroed buffer after the guarded divide is `Components` row i |
| Simulation.AccumulateTerm | simple_cell_sim/simulation.py:132-138 | the accumulator gains the term's force on each cell: y into column 0, x into column 1 |
| Simulation.NetForceStep | simple_cell_sim/simulation.py:109 | the net force over one more term is the previous net force plus that term's force |
| Simulation.Timestep | simple_cell_sim/simulation.py:100-141 | the returned force is `NetForce` over all terms, and the new positions are the Euler step along it |
| SimulationProperties.Ys | simple_cell_sim/simulation.py:137 | the y column of a force field |
| SimulationProperties.Xs | simple_cell_sim/simulation.py:138 | the x column of a force field |
| SimulationProperties.ExcludedPairContributesNothing | simple_cell_sim/simulation.py:124-134 | a pair cut off by the band or the mask gets scalar force 0 and projections 0 on both axes |
| SimulationProperties.SilentTermIsInert | simple_cell_sim/simulation.py:132-138 | a term whose scalar force is 0 off the diagonal adds no force to any cell, whatever its diagonal holds |
| SimulationProperties.OutOfReachTermIsInert | simple_cell_sim/simulation.py:124-138 | a term that reaches no pair of distinct cells adds no force |
| SimulationProperties.ZeroForceTermIsInert | simple_cell_sim/simulation.py:113-138 | a term whose law is 0 everywhere and has no noise adds no force |
| SimulationProperties.InertTermsGiveNoForce | simple_cell_sim/simulation.py:106-109 | terms that each add nothing give zero net force |
| SimulationProperties.ZeroForcesKeepPositions | simple_cell_sim/simulation.py:109-141 | all-zero force laws without noise give zero force and unchanged positions |
| SimulationProperties.SingleCellFeelsNoForce | simple_cell_sim/simulation.py:103-138 | a single cell gets force (0, 0) from any terms, noise and masks |
| SimulationProperties.SingleCellStaysPut | simple_cell_sim/simulation.py:103-141 | a single cell keeps its position |
| SimulationProperties.BuiltInForceSymmetric | simple_cell_sim/force_funcs.py:33-108 | every built-in force law maps a symmetric distance matrix to a symmetric force matrix |
| SimulationProperties.ScalarForcesSymmetric | simple_cell_sim/simulation.py:113-129 | a term with a symmetric raw force, a symmetric mask and no noise or symmetric noise has a symmetric gated force |
| SimulationProperties.ProjectionOfPairOpposite | simple_cell_sim/simulation.py:133-134 | on a symmetric force, an antisymmetric displacement and a symmetric distance, the projection of (i, j) is the negation of the projection of (j, i) |
| SimulationProperties.ProjectionBalances | simple_cell_sim/simulation.py:133-138 | a symmetric force projected on an antisymmetric displacement has projections that add up to 0 over all cells |
| SimulationProperties.PairForcesOpposite | simple_cell_sim/simulation.py:113-134 | Newton's third law for one term that acts alike on (i, j) and (j, i): the force cell j exerts on cell i is equal and opposite to the force cell i exerts on cell j, on the y and on the x axis |
| SimulationProperties.TermForceBalances | simple_cell_sim/simulation.py:133-138 | for such a term the y forces over all cells add up to 0, and so do the x forces |
| SimulationProperties.ForcesBalance | simple_cell_sim/simulation.py:106-138 | when every term is symmetric in the above sense, the net forces over all cells add up to 0 on each axis |
| SimulationProperties.EulerStepKeepsTotals | simple_cell_sim/simulation.py:141 | a step along a force field that adds up to 0 keeps the sum of each coordinate |
| SimulationProperties.CentroidFixed | simple_cell_sim/simulation.py:100-141 | under the same symmetry, one step leaves the cells' centroid fixed |
| SimulationProperties.PositiveForcePullsTogether | simple_cell_sim/simulation.py:133-134 | a positive scalar force on (i, j) gives cell i, on each axis, a projected component (the displacement being `pos[j] - pos[i]` as at lines 37-38) with the sign of `pos[j] - pos[i]`: it pulls i toward j |
| SimulationProperties.TwoCellHookeExample | simple_cell_sim/simulation.py:100-141 | cells at (0,0) and (0,3) under Hooke `dist0=1, k=1` get forces (0, 2) and (0, -2); a step of 0.1 takes them to (0, 0.2) and (0, 2.8) |
| SimulationProperties.TwoCellDists | simple_cell_sim/simulation.py:37-41 | the displacement and distance matrices of the two-cell example |
| SimulationProperties.TwoCellSpringForce | simple_cell_sim/simulation.py:113-138 | the spring's force on the two cells of the example |

## Left out

- Random sampling: `np.random.normal` has no counterpart in the model. The caller passes the raw sample matrix for each term, and the model covers what happens to it: clipping, and where it is added.
- Floating point: rounding, NaN and infinity are not modelled; everything is over `real`. Infinite range bounds (`np.inf`) are not expressible; on any given input a caller can pass instead a finite bound above every distance, which acts the same.
- `sqrt`, `exp` and `pow` have no concrete definition. Each property assumes only the laws it names: the non-negative root, a positive `exp` with `exp(0) = 1`, and `pow(1, e) = 1`. Numerical accuracy and the calculus relation between force and potential for the exponential and anharmonic laws are not modelled.
- Timestep: requires every off-diagonal distance to be nonzero. For two distinct cells at the same place the code computes 0/0 and returns NaN.
- Timestep: the fact that distinct positions give nonzero distances is not proved. The step takes nonzero distances as its precondition instead.
- Timestep: requires every term's force matrix, mask and noise sample to be n×n. The code does not check shapes, and a wrong shape is a caller error.
- `forces += random_forces` updates in place the array the force law returned, and that array may alias the caller's data. The model copies the law's result into a fresh array first, so aliasing is not modelled.
- `force_params` and the `*force_params` call: each built-in law's parameters are folded into its `ForceFunc` constructor. `Custom` stands for any other callable, modelled as a function of the distance matrix alone.
- The driver loop that feeds `pos_new` back in, plotting, and configuration are not part of this model.
