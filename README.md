# PyClifford stabilizer layer in Dafny

This project models the Clifford-map and stabilizer-state layer of PyClifford.
The repository ships it twice, and the two copies have drifted apart:

- `build/lib/pyclifford/stabilizer.py` is the build copy, modelled by module `BuildStabilizer`;
- `src/stabilizer.py` is the src copy, modelled by module `SrcStabilizer`.

Both copies define the same objects:

- A `CliffordMap` is a PauliList of 2N Pauli strings with phases. Row 2i is the image of X_i and row 2i + 1 the image of Z_i.
- A `StabilizerState` is a 2N-by-2N stabilizer tableau with phases and a log2 rank `r`. Rows [0, r) are standby stabilizers, rows [r, N) active stabilizers, rows [N, N + r) standby destabilizers and rows [N + r, 2N) active destabilizers.

The operations modelled are the map methods `copy`, `to_state`, `embed`, `compose` and `inverse`. They also include the state methods `copy`, `set_r`, `to_map`, `measure`, `expect`, `entropy`, `sample`, `get_prob` (build copy), `stabilizer_group` (src copy) and the `stabilizers` view. Finally, they include the constructors `identity_map`, `clifford_rotation_map`, `stabilizer_state`, `maximally_mixed_state` and `zero_state`.

Layout:

- `errors.dfy`: Python's exceptions as an `Error` datatype, with `Option` and `Result`.
- `slicing.dfy`: Python slice bounds and numpy 1-D slice assignment with broadcasting.
- `numpy.dfy`: rectangular integer matrices, conversion to and from Dafny arrays, `eye`, `zeros`, `flipud` and `flip`.
- `masks.dfy`: `numpy.repeat(mask, 2)`, boolean-mask indexing, and the in-place block write `gs[numpy.ix_(mask2, mask2)] = v` and phase write `ps[mask2] = v`, with their inverse extractions.
- `tableau.dfy`: the values `Paulis` (a PauliList) and `Tab` (a tableau with phases and r), the row roles, the active-stabilizer view, and the arithmetic the module does itself (phases mod 4, weighted sums).
- `helpers.dfy`: the `Backend` record. Its fields are the binary-symplectic helpers of `pyclifford.utils`, which are not part of this model: `z2inv`, `ps0`, `pauli_combine`, `pauli_transform`, `map_to_state`, `state_to_map`, `clifford_rotate`, `stabilizer_project`, `stabilizer_measure`, `stabilizer_expect`, `stabilizer_entropy`, `stabilizer_projection_trace`, `mask`, `binary_repr`, `acq_mat`, the `as_polynomial` method of `Pauli` from `paulialg`, and PauliList's default phases. Every operation takes the record as a parameter. The facts assumed about these helpers are stated as predicates marked HELPER CONTRACT.
- `core.dfy`: code that is identical in both copies. It covers the inverse phases, `embed` as a value with its error order, and `sample`.
- `build_stabilizer.dfy` and `src_stabilizer.dfy`: each copy's classes over Dafny arrays (`array2<int>` for `gs`, `array<int>` for `ps`), its value-level queries, and its constructors.
- `drift.dfy`: where the two copies agree and where they differ, stated over both models.

Behaviour of the code that the model keeps:

- In the build copy, `StabilizerState.__init__(self, gs, r=0)` takes no phases. The calls `StabilizerState(gs, ps)` in `copy` and `to_state` therefore bind the phases to `r`, and the new state gets PauliList's default phases (see Findings).
- `embed` is not atomic. Its steps run in this order:
  1. The broadcast check on the block: ValueError if it fails.
  2. The index check on the block: IndexError if it fails.
  3. The write to `gs`.
  4. The check that the mask length matches `ps`: IndexError if it fails.
  5. The phase broadcast check: ValueError if it fails.

  Failures at steps 4 and 5 leave the new block in `gs` and the old phases in `ps`.
- `get_prob` in the build copy raises the undefined name `Error` when the readout length is wrong. The model gives the resulting NameError.
- The stabilizer view is `self[self.r:self.N]` with Python slice clamping, for any value of `r`.

## Model

| member | source | states |
|---|---|---|
| Slicing.AssignSlice | build/lib/pyclifford/stabilizer.py:271 | `ps[lo:hi] = vals` succeeds exactly when `vals` has one entry per slot of the clamped slice or a single entry. A failure is a ValueError. On success the length is kept, the slice gets `vals` (broadcast) and every other entry is unchanged. |
| Slicing.AssignInRange | build/lib/pyclifford/stabilizer.py:199 | For an in-range slice and more than one value, the assignment succeeds exactly when the lengths match. The slots then hold the values in order and the rest is unchanged. |
| Slicing.WriteSlice | build/lib/pyclifford/stabilizer.py:199 | The in-place loop writes exactly what `AssignSlice` computes and reports success the same way. On failure the array is untouched. |
| Masks.Repeat2At | build/lib/pyclifford/stabilizer.py:51 | `numpy.repeat(mask, 2)` (`Repeat2`) has two entries per qubit, and entry i is the flag of qubit i / 2. |
| Masks.CountRepeat2 | build/lib/pyclifford/stabilizer.py:51 | `numpy.repeat(mask, 2)` flags exactly twice as many positions as the mask. |
| Masks.RepeatRank | build/lib/pyclifford/stabilizer.py:51 | Among the flagged positions of the doubled mask, qubit q's X row has rank 2·rank(q), and its Z row follows it when q is flagged. |
| Masks.RepeatRankAt | build/lib/pyclifford/stabilizer.py:51 | The row of a flagged qubit is flagged in the doubled mask, at rank 2·rank(qubit) + (row mod 2). |
| Masks.Selected | build/lib/pyclifford/stabilizer.py:52 | `numpy.ix_` on a boolean mask lists exactly the flagged positions, in increasing order: entry a is flagged and has rank a. |
| Masks.SelectedAtRank | build/lib/pyclifford/stabilizer.py:52 | Every flagged position appears in that list, at its rank. |
| Masks.EmbedBlockAt | build/lib/pyclifford/stabilizer.py:52 | After the block write (`EmbedBlock`), an entry whose row and column are both flagged holds the value's entry at their ranks, repeated along an axis of length 1. Every other entry keeps its old value. |
| Masks.EmbedThenExtract | build/lib/pyclifford/stabilizer.py:52 | Writing a block through the mask and reading the masked block back gives the block written. |
| Masks.ExtractThenEmbed | build/lib/pyclifford/stabilizer.py:52 | Writing back the masked block a matrix already holds leaves the matrix unchanged. |
| Masks.EmbedTwice | build/lib/pyclifford/stabilizer.py:52 | Two block writes through the same mask amount to the second one alone. |
| Masks.EmbedQubitsOutside | build/lib/pyclifford/stabilizer.py:51-52 | An entry whose row or column belongs to an unflagged qubit is not changed by the block write. |
| Masks.EmbedQubitsInside | build/lib/pyclifford/stabilizer.py:51-52 | The entry at two flagged qubits' rows becomes the small map's entry at their ranks (2·rank + X/Z offset). |
| Masks.EmbedKeepsUnflagged | build/lib/pyclifford/stabilizer.py:51-52 | All entries in rows or columns of unflagged qubits are unchanged by the block write. |
| Masks.WriteBlock | build/lib/pyclifford/stabilizer.py:52 | The in-place nested loop leaves the array equal to the block write of its old contents. |
| Masks.EmbedPhasesThenExtract | build/lib/pyclifford/stabilizer.py:53 | Writing phases through a mask (`EmbedPhases`, the model of `ps[mask2] = vals`) and reading the masked phases back gives the phases written. |
| Masks.ExtractPhasesThenEmbed | build/lib/pyclifford/stabilizer.py:53 | Writing back the masked phases a vector already holds leaves it unchanged. |
| Masks.EmbedPhasesKeepsUnflagged | build/lib/pyclifford/stabilizer.py:51-53 | The phases of unflagged qubits are unchanged by the phase write. |
| Masks.WriteMasked | build/lib/pyclifford/stabilizer.py:53 | The in-place loop leaves the phase array equal to the masked write of its old contents. |
| Tableau.Stabilizers | build/lib/pyclifford/stabilizer.py:102-104 | On a tableau with 0 ≤ r ≤ N, the view has N − r strings and N − r phases, and entry k is row r + k with its phase. |
| Tableau.StabilizersAreActiveRows | build/lib/pyclifford/stabilizer.py:77-80 | A row is an active stabilizer exactly when r ≤ i < N. The view holds exactly those rows. Stabilizer row i and destabilizer row N + i are standby or active together. |
| Tableau.ActiveCountAtExtremes | src/stabilizer.py:99-103 | A maximally mixed state (r = N) has no active stabilizer. A pure state (r = 0) has all N of its first rows active, with their phases. |
| Tableau.InversePhases | build/lib/pyclifford/stabilizer.py:68 | `(-ps_mis - ps0(gs_inv)) % 4` gives, per row, a value in [0, 4) that cancels the mismatch and the base phase mod 4. |
| Tableau.InversePhasesUnique | build/lib/pyclifford/stabilizer.py:68 | Any phase vector in [0, 4) that cancels the mismatch mod 4 equals those inverse phases. |
| Tableau.Products | build/lib/pyclifford/stabilizer.py:152 | `cs * xs` succeeds exactly when the lengths are equal or either side has one element. Otherwise it is a ValueError. On success its length is that of the side that is not a single element (1 if both are single elements, 0 against an empty side), and entry k is weight k times value k, with a one-element side repeated. `WeightedSum` totals these products. |
| Tableau.UnitWeightSum | build/lib/pyclifford/stabilizer.py:148-152 | A Pauli promoted to a one-term polynomial of weight 1 has as weighted sum the plain sum of its expectation values. |
| Tableau.TotalOfUnitScaled | build/lib/pyclifford/stabilizer.py:152 | Summing values scaled by weight 1 gives their integer sum as a real with no imaginary part. |
| Tableau.BitsOfValue | src/stabilizer.py:162 | Every row of k bits is the k-bit representation of a number below 2^k, namely its value. |
| Tableau.ValueOfBits | src/stabilizer.py:162 | A number below 2^k is recovered from its k-bit representation, so distinct numbers have distinct rows. |
| Tableau.Arange | src/stabilizer.py:162 | `numpy.arange(n)` has n entries and entry k is k. |
| Core.IdentityValue | build/lib/pyclifford/stabilizer.py:233-236 | `identity_map(N)` holds the 2N-by-2N identity matrix, with the phases PauliList gives it. |
| Core.Inverse | build/lib/pyclifford/stabilizer.py:63-69 | The inverse map's strings are `z2inv` of the map's. It has one phase per mismatch entry, each in [0, 4), cancelling mismatch plus base phase mod 4. The src copy is the same (src/stabilizer.py:61-67). |
| Core.InverseDetermined | build/lib/pyclifford/stabilizer.py:66-68 | Those conditions determine the inverse phases: any vector meeting them is the one `inverse` returns. |
| Core.Embed | build/lib/pyclifford/stabilizer.py:49-54 | The shapes of `gs` and `ps` are kept. There is no error exactly when the block broadcasts, the doubled mask is in bounds, the mask matches the number of phases and the phases broadcast. Each failed check gives its own error, in this order: <br>• a block that does not broadcast gives ValueError; <br>• an index out of range gives IndexError; <br>• a mask whose length differs from `ps` gives IndexError; <br>• phases that do not broadcast give ValueError. <br>The first two failures leave both arrays unchanged. The last two leave the new block in place. Any error leaves the phases unchanged. On success the phases are the masked phase write `EmbedPhases` of the old phases, with a single phase repeated on every flagged row. The src copy is the same (src/stabilizer.py:47-52). |
| Core.EmbedWellShaped | build/lib/pyclifford/stabilizer.py:49-54 | An N′-qubit map embedded along an N-flag mask with N′ flags set succeeds. The flagged block and phases read back as the small map. |
| Core.EmbedKeepsOtherQubits | build/lib/pyclifford/stabilizer.py:51-53 | In that case every entry in a row or column of an unflagged qubit, and every phase of one, is unchanged. |
| Core.EmbedFailsAfterBlockWrite | build/lib/pyclifford/stabilizer.py:52-53 | A mask shorter than the map, with a block that fits, raises IndexError after the block has been written. The new block stays and the phases are the old ones. |
| Core.Sample | build/lib/pyclifford/stabilizer.py:187-191 | `sample(L)` fails, with ValueError, exactly when L < 0 or r > N. Otherwise it is `pauli_combine` of the drawn coefficients with the active stabilizers. On a tableau the draw has L rows, each with one coefficient per active stabilizer. The src copy is the same (src/stabilizer.py:153-157). |
| BuildStabilizer.Rebuilt | build/lib/pyclifford/stabilizer.py:89-91 | `StabilizerState(gs, ps).set_r(r)` in the build copy keeps the tableau, takes r from `set_r` and holds the default phases of `gs`. The result keeps the passed phases only when they already are those defaults. |
| BuildStabilizer.RebuiltIgnoresPhases | build/lib/pyclifford/stabilizer.py:89-91 | The state so built is the same whatever phases are passed. |
| BuildStabilizer.CopyOf | build/lib/pyclifford/stabilizer.py:106-107 | `copy` keeps the tableau and r, and its phases are the default phases of the tableau. The copy equals the original exactly when the original holds the default phases. |
| BuildStabilizer.StateOfMap | build/lib/pyclifford/stabilizer.py:43-47 | `to_state` has `map_to_state`'s tableau and r from `set_r`. Its phases are the default phases of that tableau, so it keeps `map_to_state`'s phases exactly when they are the defaults. |
| BuildStabilizer.Expect | build/lib/pyclifford/stabilizer.py:134-163 | The result depends on the kind of observable: <br>• A list gives the helper's values. <br>• A polynomial gives the weighted sum, and fails exactly when the weights do not broadcast. <br>• A Pauli gives the plain sum of its values, when `as_polynomial` yields its one-term polynomial of weight 1. <br>• A state observable fails exactly when r ≠ 0. Otherwise it gives the projection trace against its active stabilizers divided by 2^r. <br>• Any other object gives None. <br>The only errors are ValueError, from a polynomial or a promoted Pauli, and NotImplementedError, from a state. |
| BuildStabilizer.Entropy | build/lib/pyclifford/stabilizer.py:173-182 | An empty region has entropy 0. Otherwise the helper gets the active stabilizers and a flag vector. The vector is the given flags, or `mask(indices, N)` for indices. |
| BuildStabilizer.ReadoutStateWrites | build/lib/pyclifford/stabilizer.py:198-199 | Writing the readout into the identity state's first N phases succeeds exactly when it has N entries or one. With N entries the result is the pure identity state, with the readout as its first N phases and the other phases unchanged. |
| BuildStabilizer.ProbabilityOf | build/lib/pyclifford/stabilizer.py:196-197 | A readout whose length differs from N gives NameError. |
| BuildStabilizer.ProbabilityUsesReadout | build/lib/pyclifford/stabilizer.py:192-200 | For a readout of length N, a mixed state gives NotImplementedError. A pure state gives the projection trace against the first N rows of the identity state, with the readout as their phases. |
| BuildStabilizer.FromStabilizers | build/lib/pyclifford/stabilizer.py:260-272 | Non-commuting stabilizers give ValueError, and ValueError is the only error. |
| BuildStabilizer.FromStabilizersPhaseCount | build/lib/pyclifford/stabilizer.py:270-271 | For commuting stabilizers with 0 ≤ r ≤ N after projection, construction succeeds exactly when there is one phase per active row or a single phase. |
| BuildStabilizer.FromStabilizersActivePhases | build/lib/pyclifford/stabilizer.py:269-271 | With one phase per active row or a single phase, the result has the projected tableau (of the row-reversed stabilizers) and r. Active row r + k gets phase k, or the single phase on every active row. All other phases are those of the maximally mixed state. |
| BuildStabilizer.CliffordMap.constructor | build/lib/pyclifford/stabilizer.py:25-26 | A new map holds fresh arrays with the given strings and phases. |
| BuildStabilizer.CliffordMap.Copy | build/lib/pyclifford/stabilizer.py:40-41 | The copy is a new map on fresh arrays with equal strings and phases. |
| BuildStabilizer.CliffordMap.ToState | build/lib/pyclifford/stabilizer.py:43-47 | The new state is `map_to_state`'s tableau with default phases and r from `set_r`. |
| BuildStabilizer.CliffordMap.Embed | build/lib/pyclifford/stabilizer.py:49-54 | The arrays end as `Core.Embed` of their old contents and the old small map. It returns the map itself on success, otherwise the exception raised. |
| BuildStabilizer.CliffordMap.Compose | build/lib/pyclifford/stabilizer.py:56-61 | A fresh map equal to `pauli_transform` of this map by the other. |
| BuildStabilizer.CliffordMap.Inverse | build/lib/pyclifford/stabilizer.py:63-69 | A fresh map equal to `Core.Inverse` of this map. |
| BuildStabilizer.StabilizerState.constructor | build/lib/pyclifford/stabilizer.py:89-91 | `StabilizerState(gs, r)` holds fresh arrays with `gs`, the default phases and the given r. |
| BuildStabilizer.StabilizerState.Copy | build/lib/pyclifford/stabilizer.py:106-107 | The copy keeps the tableau and r but has the default phases. |
| BuildStabilizer.StabilizerState.SetR | build/lib/pyclifford/stabilizer.py:109-112 | Only r changes, to 0 for None and otherwise to the argument. The state itself is returned. |
| BuildStabilizer.StabilizerState.ToMap | build/lib/pyclifford/stabilizer.py:114-117 | A fresh map equal to `state_to_map` of the tableau and phases. |
| BuildStabilizer.StabilizerState.Measure | build/lib/pyclifford/stabilizer.py:119-132 | Tableau, phases and r become what `stabilizer_measure` returns for the list, or for the observed state's active stabilizers read before the update. The outcomes and log2 probability are returned. A different observed state is left unchanged. |
| BuildStabilizer.StabilizerState.GetProb | build/lib/pyclifford/stabilizer.py:192-200 | The method, which writes the readout into a fresh identity state's phases, returns `ProbabilityOf`. |
| BuildStabilizer.IdentityMap | build/lib/pyclifford/stabilizer.py:233-236 | A fresh map with the 2N identity strings and default phases. |
| BuildStabilizer.CliffordRotationMap | build/lib/pyclifford/stabilizer.py:251-257 | A fresh map equal to `clifford_rotate` applied to the identity strings with zero phases. |
| BuildStabilizer.MaximallyMixedState | build/lib/pyclifford/stabilizer.py:274-275 | The identity map read as a state with r = N. When `map_to_state` gives a 2N-by-2N tableau, this is a tableau with r in range and no active stabilizer. |
| BuildStabilizer.ZeroState | build/lib/pyclifford/stabilizer.py:277-278 | The identity map read as a state with r = 0. When `map_to_state` gives a 2N-by-2N tableau, this is a tableau with all N stabilizers active. |
| BuildStabilizer.StabilizerStateOf | build/lib/pyclifford/stabilizer.py:260-272 | The method, which projects and writes into a maximally mixed state in place, fails or succeeds as `FromStabilizers` does. On success the resulting state has `FromStabilizers`' value. |
| SrcStabilizer.CopyOf | src/stabilizer.py:105-106 | `copy` returns a state equal to the original. |
| SrcStabilizer.Expect | src/stabilizer.py:133-144 | A list gives the helper's values for it. A state observable gives exactly what the list of its active stabilizers gives. |
| SrcStabilizer.Entropy | src/stabilizer.py:146-148 | On a tableau with 0 ≤ r ≤ N, the helper gets the N − r active rows and the region exactly as given. |
| SrcStabilizer.StabilizerGroup | src/stabilizer.py:160-164 | On a tableau it is `pauli_combine` of `binary_repr(arange(2^K))` with the K active stabilizers, rows [r, N). |
| SrcStabilizer.StabilizerGroupEnumerates | src/stabilizer.py:160-164 | When `binary_repr` writes each integer's K bits, the coefficient matrix has 2^K rows of K bits in {0, 1}. No two rows are alike and every row of K bits occurs, so every subset of the active stabilizers is multiplied out exactly once. |
| SrcStabilizer.FromStabilizers | src/stabilizer.py:196-208 | Non-commuting stabilizers give ValueError, and ValueError is the only error. |
| SrcStabilizer.FromStabilizersPhaseCount | src/stabilizer.py:206-207 | For commuting stabilizers with 0 ≤ r ≤ N after projection, construction succeeds exactly when there is one phase per active row or a single phase. |
| SrcStabilizer.FromStabilizersActivePhases | src/stabilizer.py:205-207 | With one phase per active row or a single phase, the result has the projected tableau (stabilizers in their given order) and r. Active row r + k gets phase K − 1 − k, or the single phase on every active row. All other phases are those of the maximally mixed state. |
| SrcStabilizer.CliffordMap.constructor | src/stabilizer.py:23-24 | A new map holds fresh arrays with the given strings and phases. |
| SrcStabilizer.CliffordMap.Copy | src/stabilizer.py:38-39 | The copy is a new map on fresh arrays with equal strings and phases. |
| SrcStabilizer.CliffordMap.ToState | src/stabilizer.py:41-45 | The new state has `map_to_state`'s tableau and phases, and r from `set_r`. |
| SrcStabilizer.CliffordMap.Embed | src/stabilizer.py:47-52 | The arrays end as `Core.Embed` of their old contents. It returns the map itself, or the exception raised. |
| SrcStabilizer.CliffordMap.Compose | src/stabilizer.py:54-59 | A fresh map equal to `pauli_transform` of this map by the other. |
| SrcStabilizer.CliffordMap.Inverse | src/stabilizer.py:61-67 | A fresh map equal to `Core.Inverse` of this map. |
| SrcStabilizer.StabilizerState.constructor | src/stabilizer.py:86-88 | `StabilizerState(gs, ps)` holds fresh arrays with the given tableau and phases, and r = 0. |
| SrcStabilizer.StabilizerState.Copy | src/stabilizer.py:105-106 | The copy is a new state equal in tableau, phases and r. |
| SrcStabilizer.StabilizerState.SetR | src/stabilizer.py:108-111 | Only r changes, to 0 for None and otherwise to the argument. The state itself is returned. |
| SrcStabilizer.StabilizerState.ToMap | src/stabilizer.py:113-116 | A fresh map equal to `state_to_map` of the tableau and phases. |
| SrcStabilizer.StabilizerState.Measure | src/stabilizer.py:118-131 | The state becomes what `stabilizer_measure` returns for the observed rows, read before the update. A different observed state is left unchanged. |
| SrcStabilizer.IdentityMap | src/stabilizer.py:167-170 | A fresh map with the 2N identity strings and default phases. |
| SrcStabilizer.CliffordRotationMap | src/stabilizer.py:187-193 | A fresh map equal to `clifford_rotate` applied to the identity strings with zero phases. |
| SrcStabilizer.MaximallyMixedState | src/stabilizer.py:210-211 | The identity map read as a state with r = N, keeping `map_to_state`'s phases. When `map_to_state` gives a 2N-by-2N tableau with 2N phases, this is a tableau with r in range and no active stabilizer. |
| SrcStabilizer.ZeroState | src/stabilizer.py:213-214 | The identity map read as a state with r = 0. Under the same shape, this is a tableau with all N stabilizers active. |
| SrcStabilizer.StabilizerStateOf | src/stabilizer.py:196-208 | The method, which projects and writes the flipped phases in place, fails or succeeds as `FromStabilizers` does. On success the resulting state has its value. |
| Drift.CopyKeepsPhasesIff | build/lib/pyclifford/stabilizer.py:106-107 | The build `copy` returns an equal state exactly when the state already holds the default phases. The src `copy` always returns an equal state. |
| Drift.CopyDropsPhasesWitness | build/lib/pyclifford/stabilizer.py:107 | For the one-qubit state \|−⟩ (tableau eye(2), phases [2, 0]), the build `copy` returns a different state and the src `copy` returns it unchanged. |
| Drift.ToStateAgreesIff | build/lib/pyclifford/stabilizer.py:43-47 | The two copies' `to_state` agree exactly when `map_to_state` yields the default phases of its tableau. |
| Drift.BuildPairsPhases | build/lib/pyclifford/stabilizer.py:269-271 | If the projection stores the generators reversed, build `stabilizer_state` gives active row r + k generator k and phase k. |
| Drift.SrcPairsPhases | src/stabilizer.py:205-207 | If the projection stores the generators reversed, src `stabilizer_state` gives active row r + k generator K − 1 − k and its phase. In both copies each active row keeps its own generator's phase. |
| Drift.EntropyOnFlags | src/stabilizer.py:146-148 | On a non-empty flag region the two `entropy`s agree. On an empty one the build copy returns 0 and the src copy asks the helper. |
| Drift.EntropyOnIndices | build/lib/pyclifford/stabilizer.py:180-182 | The build copy turns qubit indices into flags with `mask(indices, N)`. The src copy hands the indices to the helper unchanged. |
| Drift.ExpectOnListsAgrees | build/lib/pyclifford/stabilizer.py:161-163 | On a Pauli list both copies' `expect` return the helper's values. |
| Drift.ExpectOnStatesDiffers | build/lib/pyclifford/stabilizer.py:153-155 | On a state observable and a mixed state, the build copy raises NotImplementedError. The src copy returns the values for the observable's active stabilizers. |

## Left out

- The helpers of `pyclifford.utils` (symplectic inverse, Pauli products, projection, measurement, entropy, expectation) and PauliList itself are not part of this model. They are fields of `Backend`. Each operation's result is stated in terms of what those fields return.
- Several facts about the helpers are stated as premises, not proved: `InverseContract`, `IdentityStateShape` (one per copy), `ProjectStoresReversed`, `BinaryReprEnumerates` (the bit layout of `binary_repr`) and `AsPolynomialUnit` (that `Pauli.as_polynomial` gives one term of weight 1).
- Randomness is left out. `random_pauli_map` and `random_clifford_map` are not modelled. The coefficient draw of `sample` is a parameter `draw`.
- `to_qutip`, the `density_matrix` property and the operator dunders built on it, `__repr__`, `tokenize` and `one_state` are left out. They are display code or rely on qutip and PauliPolynomial arithmetic.
- Argument parsing (`pauli(gen)` and `paulis(*stabilizers)`) is left out. `clifford_rotation_map` takes the Pauli as a string and phase. `stabilizer_state` takes an already parsed PauliList.
- Core.Embed: the order of the first two checks follows numpy's fancy assignment. numpy checks that the value broadcasts while it sets up the assignment, then checks the `ix_` indices before writing anything, since there is more than one index array. When both checks fail, the model raises ValueError. This order is taken from numpy's design; it is not proved.
- Integer-index masks for `embed` are left out. Only boolean masks are modelled. An integer mask would make `numpy.repeat` produce indices, not flags.
- Numpy's fixed-width integers are left out. Entries are unbounded integers, and no overflow can happen in the arithmetic done here.
- Floating point is left out. `trace / 2**r` is exact real division, and the trace is a real returned by the helper.
- The width of a matrix with no rows is taken as 0. numpy would keep the declared column count of an empty `(0, 2N)` array.
- A non-PauliList observable in src `expect` would raise AttributeError in Python. It is not modelled: `SrcStabilizer.Observable` has only lists and states.
- In the src copy, `__getattribute__` compares the attribute name with `is`. The model takes the comparison as true for `stabilizers`, because CPython interns identifier strings.
- Aliasing between the helpers' inputs and outputs is left out. Every helper result is copied into fresh arrays.
- SrcStabilizer.StabilizerGroup: requires r ≤ N, because for r > N `2**(N - r)` is a float and `numpy.arange` of it is not modelled.
- Core.Sample: the draw is a parameter of the stated shape whenever L ≥ 0 and r ≤ N. That numpy's draw is uniformly random is not modelled.
- BuildStabilizer.CliffordMap.ToState: `StabilizerState(gs, ps)` binds the phases to `r`, which `set_r` overwrites at once. The model passes 0 in their place; no observable state differs.
- BuildStabilizer.FromStabilizers: when the stabilizers do not commute, the error is raised before any state is built. The value model cannot express that nothing was allocated.

## Findings

| source | as written | input that shows it | evidently intended | confidence | as-written member | corrected member |
|---|---|---|---|---|---|---|
| build/lib/pyclifford/stabilizer.py:89-91 | `__init__(self, gs, r=0)` takes no phases. `StabilizerState(gs, ps)` in `copy` (line 107) and `to_state` (line 47) binds `ps` to `r`, so the phases are replaced by PauliList's defaults. | The one-qubit state \|−⟩: tableau eye(2), phases [2, 0], r = 0. Its build `copy` has the default phases instead, so it differs from the original (`Drift.CopyDropsPhasesWitness`). | `copy` returns an equal state and `to_state` keeps `map_to_state`'s phases, as the src copy's `__init__(*args, **kwargs)` does. | high; not executed | BuildStabilizer.StabilizerState.Copy | SrcStabilizer.CopyOf |
