# Sacc compilation of spectra and covariance, modelled in Dafny

This project models the step of the power-spectrum pipeline that compiles
the decoupled cross spectra and the Monte-Carlo covariance blocks into one
sacc container per realisation (`pipeline/create_sacc_file.py`). It also
models three helpers from `legacy/utils_wmap_planck.py`: the multipole
binning, the binning of validation spectra with bandpower window functions,
and the split-pair filter.

Modules:

- `Arith` (`arith.dfy`): absolute value and the quotient/remainder facts
  that block-indexed layouts need.
- `Matrices` (`matrices.dfy`): dense real matrices as `seq<seq<real>>`. It has
  the numpy primitives the compiler uses (`zeros`, `eye(k)`, `+`, `*`,
  `tile`) and a snapshot `ToSeq` of a two-dimensional array.
- `SaccLabels` (`labels.dfy`):
  - the field-pair order given by `product("TEB", repeat=2)`;
  - the `cl_xy` data-type codes;
  - tracer names `ms_s0` / `ms_s2`;
  - the zero-padded realisation suffix, with a decimal round trip.
- `Thinning` (`thinning.dfy`): `multi_eye` and `thin_covariance` as pure
  functions.
- `CovarianceAssembly` (`assembly.dfy`): the imperative block assembly of
  `main`, on `array2<real>`. The parts are:
  - the 9 × 9 sub-block tiling into a zeroed array;
  - the `covs` dictionary of thinned blocks for entries i ≤ j;
  - the placement of those blocks into a zeroed `full_cov`;
  - the in-place symmetrisation `triu(F) + triu(F)^T - diag(F)`.

  Each method is proved against a specification function (`TiledBlock`,
  `PairBlock`, `UpperBlocks`, `FullCovariance`). The lemmas state the
  layout, symmetry and band structure of the result.
- `SaccContainer` (`sacc.dfy`): the container is a class whose tracer and
  data-point lists grow by appending. The per-realisation loop of `main`
  fills one container per output file. The data vector is laid out at the
  same flat offsets as the covariance.
- `Binning` (`binning.dfy`): `create_binning` and numpy's integer `arange`.
- `BandpowerWindow` (`bandpower.dfy`): `bin_validation_power_spectra`. It is a
  loop over spin blocks and value types, and fills the result map using the
  einsum `"ijkl,kl"` contraction. Lemmas cover its keys, independence,
  linearity and a flat-sum form of the contraction.
- `SplitPairs` (`splitpairs.dfy`): `get_split_pairs_from_coadd_ps_name`.
  It is a loop that appends pairs to the `cross` or `auto` list. It is
  specified by a routing function and its counting, membership, order and
  partition lemmas.

Inputs that the source reads from disk or from the metadata object are
parameters (see "## Left out"):

- the covariance files are a map from file path to a dictionary of n × n
  blocks, keyed by `fp1 + fp2`;
- the spectrum files are a map from path to a dictionary of spectra;
- the map sets, pair entries and frequency tags are sequences and maps;
- the effective multipoles `lb` are a sequence.

Facts about the code that the model keeps:

- Nine data types are emitted, one per field pair: `cl_00 cl_0e cl_0b cl_e0
  cl_ee cl_eb cl_b0 cl_be cl_bb` (`pipeline/create_sacc_file.py:127-133`).
- The compiler always thins with order 3 (`ThinOrder`,
  `pipeline/create_sacc_file.py:78-80`). The order is not a configuration
  option.
- When the step is larger than the multipole range, `create_binning` yields
  one bin `[0, 3·nside − 1]`. The last bin is only ever cut short, never
  widened (`Binning.LastBin`, `legacy/utils_wmap_planck.py:231-233`).
- The einsum window is indexed `[output field][bin][input field][ell]`, as
  the subscripts `"ijkl,kl"` say (`legacy/utils_wmap_planck.py:486`).
- Missing covariance or spectrum entries are not checked by the code. A
  missing entry is a lookup error, so the model states the expected keys and
  shapes as preconditions.

## Model

| member | source | states |
|---|---|---|
| Matrices.Eye | pipeline/create_sacc_file.py:12 | `np.eye(size, k=k)`: 1 where column − row = k, 0 elsewhere, size × size. |
| Matrices.Hadamard | pipeline/create_sacc_file.py:25 | Elementwise product `eye * cov` of two equally shaped matrices. |
| Matrices.Tile | pipeline/create_sacc_file.py:23 | `np.tile(m, (reps, reps))`: entry (a, b) is m[a mod size][b mod size], a (reps·size)² matrix. |
| SaccLabels.FieldPairs | pipeline/create_sacc_file.py:48 | The nine two-character field pairs of `product("TEB", repeat=2)`: pair k is field k div 3 followed by field k mod 3. |
| SaccLabels.FieldPairOrder | pipeline/create_sacc_file.py:48 | The field pairs are TT, TE, TB, ET, EE, EB, BT, BE, BB, in that order. |
| SaccLabels.CovarianceKeysDistinct | pipeline/create_sacc_file.py:73-76 | The 81 keys `fp1 + fp2` are pairwise distinct, so each sub-block is read from its own entry. |
| SaccLabels.DataType | pipeline/create_sacc_file.py:57 | A data type is `"cl_"` followed by the codes of the two fields (T→0, E→e, B→b). |
| SaccLabels.DataTypesOfFieldPairs | pipeline/create_sacc_file.py:127-133 | The nine field pairs emit exactly `cl_00 … cl_bb` in field-pair order, and no two share a data type. |
| SaccLabels.DataTypeInjective | pipeline/create_sacc_file.py:133 | Two different field pairs over T, E, B never get the same data type. |
| SaccLabels.Spin | pipeline/create_sacc_file.py:130-131 | The spin is 0 exactly for T, and 2 otherwise. |
| SaccLabels.Decimal | pipeline/create_sacc_file.py:101 | The decimal digits of a natural number, most significant first, as Python formats an int. |
| SaccLabels.DecimalRoundTrip | pipeline/create_sacc_file.py:101 | Formatting an id in decimal gives digits whose value is the id. |
| SaccLabels.ZeroPad | pipeline/create_sacc_file.py:101 | Padding to a width keeps the digits as the suffix, puts only zeros in front, and has length max(width, len). |
| SaccLabels.SimLabel | pipeline/create_sacc_file.py:101 | The suffix is empty iff there is at most one realisation. |
| SaccLabels.SimLabelShape | pipeline/create_sacc_file.py:101 | With several realisations, the suffix is "_" followed by digits denoting the id, exactly four of them when id < 10000. |
| SaccLabels.SimLabelsDistinct | pipeline/create_sacc_file.py:101 | Distinct realisations get distinct suffixes. |
| SaccLabels.TracerName | pipeline/create_sacc_file.py:113 | The tracer name `"<ms>_s<spin>"`. |
| SaccLabels.TracerNameOfField | pipeline/create_sacc_file.py:129-135 | A field's tracer is `ms_s0` for T and `ms_s2` for E and B. |
| Thinning.Range | pipeline/create_sacc_file.py:21 | `range(lo, hi)` has hi − lo elements (0 if empty), and element i is lo + i. |
| Thinning.RangeCount | pipeline/create_sacc_file.py:21 | Every integer of [lo, hi) occurs exactly once in `range(lo, hi)`, and nothing else occurs. |
| Thinning.MultiEye | pipeline/create_sacc_file.py:9-12 | `multi_eye`: the sum of `eye(size, k)` over the offsets k of the list, a size × size matrix. |
| Thinning.MultiEyeCounts | pipeline/create_sacc_file.py:9-12 | Entry (r, c) of `multi_eye(size, ks)` is the number of k in ks with c − r = k. |
| Thinning.Band | pipeline/create_sacc_file.py:21-22 | `multi_eye` over the offsets −order..order, as `thin_covariance` builds it. |
| Thinning.MultiEyeBand | pipeline/create_sacc_file.py:21-22 | With offsets −order..order, `multi_eye` is 1 where the row and column are at most order apart, and 0 elsewhere. |
| Thinning.ThinCovariance | pipeline/create_sacc_file.py:15-25 | Without an order, the block is returned unchanged; with an order, the result has the input's shape. |
| Thinning.ThinningRule | pipeline/create_sacc_file.py:21-25 | Entry (a, b) keeps `cov[a][b]` iff the bin indices a mod n_bins and b mod n_bins are at most order apart, and is 0 otherwise. |
| Thinning.ThinnedEntry | pipeline/create_sacc_file.py:23-25 | A thinned entry is the covariance entry times the band indicator at the two bin indices (a mod n_bins, b mod n_bins). |
| Thinning.ThinningPerSubBlock | pipeline/create_sacc_file.py:23-25 | The same band applies in every field-pair sub-block: entry (a, b) of sub-block (p, q) is kept iff the bins differ by at most order. |
| CovarianceAssembly.CovKey | pipeline/create_sacc_file.py:73-76 | The key of sub-block (p, q) in a covariance file: field pair p followed by field pair q (`fp1+fp2`). |
| CovarianceAssembly.CovFileName | pipeline/create_sacc_file.py:67-69 | The covariance file of entries (ms1, ms2) and (ms3, ms4): `covariances/mc_cov_<ms1>_x_<ms2>_<ms3>_x_<ms4>.npz`. |
| CovarianceAssembly.TiledBlock | pipeline/create_sacc_file.py:71-76 | The (9n)×(9n) block whose entry (r, c) is entry (r mod n, c mod n) of the file's key `fp[r div n] + fp[c div n]`. |
| CovarianceAssembly.TiledBlockAt | pipeline/create_sacc_file.py:71-76 | In a tiled block, entry (a, b) of field-pair sub-block (p, q) sits at (p·n + a, q·n + b) and equals `cov_dict[fp_p + fp_q][a][b]`. |
| CovarianceAssembly.CopyBlockInto | pipeline/create_sacc_file.py:75-76 | Slice assignment: the rectangle holds the source block, and every other entry is unchanged. |
| CovarianceAssembly.TileBlockRow | pipeline/create_sacc_file.py:73-76 | One pass of the inner loop fills the next row of sub-blocks and leaves the rest of the zeroed array as it was. |
| CovarianceAssembly.TileBlock | pipeline/create_sacc_file.py:71-76 | The zeroed (9n)×(9n) array, after the double loop, equals the tiled block of the file. |
| CovarianceAssembly.ComputePairBlock | pipeline/create_sacc_file.py:67-80 | The value stored for one pair of entries is that file's tiled block thinned with order 3. |
| CovarianceAssembly.PairBlock | pipeline/create_sacc_file.py:78-80 | The value the compiler stores for a pair of entries: the tiled block of its file, thinned with order 3. |
| CovarianceAssembly.PairBlockAt | pipeline/create_sacc_file.py:71-80 | A stored block's entry for sub-block (f, g) and bins (a, b) is the file entry when \|a − b\| ≤ 3, and 0 otherwise. |
| CovarianceAssembly.BuildPairBlocks | pipeline/create_sacc_file.py:61-80 | `covs` has a key for every pair of entries i ≤ j and no other keys (`UpperKeys`), and each value is that file's tiled block thinned with order 3. |
| CovarianceAssembly.BuildPairRow | pipeline/create_sacc_file.py:63-80 | One pass of the outer loop stores the blocks (ps[i], ps[j]) for j ≥ i, skips j < i, keeps every earlier key, and adds only keys of pairs i ≤ j. |
| CovarianceAssembly.UpperEntry | pipeline/create_sacc_file.py:82-93 | Entry (r, c) of the placed matrix: entry (r mod 9n, c mod 9n) of the stored block (ps[r div 9n], ps[c div 9n]) when r div 9n ≤ c div 9n, and 0 otherwise. |
| CovarianceAssembly.UpperBlocks | pipeline/create_sacc_file.py:82-93 | The zeroed matrix of side n_pairs·9n with block (i, j) equal to the stored block when i ≤ j and left at 0 when i > j. |
| CovarianceAssembly.UpperBlocksLayout | pipeline/create_sacc_file.py:82-93 | Blocks with i ≤ j sit at offsets (i·9n, j·9n) and hold the stored block; every entry of a block with i > j is 0. |
| CovarianceAssembly.UpperEntryAt | pipeline/create_sacc_file.py:82-93 | Entry (i·9n + a, j·9n + b) of the placed matrix lies in range and is entry (a, b) of the stored block when i ≤ j, and 0 when i > j. |
| CovarianceAssembly.PlacePairBlock | pipeline/create_sacc_file.py:90-93 | One slice assignment places block (i, j) and keeps every block placed before it, leaving the later ones zero. |
| CovarianceAssembly.PlacePairRow | pipeline/create_sacc_file.py:86-93 | One pass over j places the blocks j ≥ i of row i, skips j < i, and changes nothing else. |
| CovarianceAssembly.PlacePairBlocks | pipeline/create_sacc_file.py:82-93 | `full_cov` has side n_pairs·9·n_bins and, after the loops, equals the upper-block matrix. |
| CovarianceAssembly.Triu | pipeline/create_sacc_file.py:96 | Entries below the diagonal become 0, and the others are kept. |
| CovarianceAssembly.TransposeMinusDiagonal | pipeline/create_sacc_file.py:97 | Returns a new array holding the transpose minus the diagonal. |
| CovarianceAssembly.AddInPlace | pipeline/create_sacc_file.py:97 | `+=` adds the other array elementwise. |
| CovarianceAssembly.Symmetrise | pipeline/create_sacc_file.py:95-97 | The result is symmetric. On and above the diagonal it equals the old matrix, so the diagonal is not doubled; below it, it mirrors the old upper triangle. |
| CovarianceAssembly.Symmetrised | pipeline/create_sacc_file.py:96-97 | `triu(F) + triu(F).T − diag(F)` in closed form: entry (r, c) is F[min(r, c)][max(r, c)]. |
| CovarianceAssembly.FullCovariance | pipeline/create_sacc_file.py:82-97 | The covariance the compiler attaches: the upper-block matrix, symmetrised. |
| CovarianceAssembly.CompileCovariance | pipeline/create_sacc_file.py:61-97 | The covariance part of `main` returns a fresh array equal to `FullCovariance`. |
| CovarianceAssembly.FullCovarianceAt | pipeline/create_sacc_file.py:95-97 | Entry (r, c) of the compiled covariance is the placed entry at (min(r, c), max(r, c)). |
| CovarianceAssembly.FullCovarianceSymmetric | pipeline/create_sacc_file.py:95-97 | The compiled covariance is exactly symmetric. |
| CovarianceAssembly.FullCovarianceUpperAt | pipeline/create_sacc_file.py:90-97 | An entry of block i ≤ j on or above the diagonal, and its mirror, both equal the stored block's entry. |
| CovarianceAssembly.FlatIndex | pipeline/create_sacc_file.py:73-93 | The shared layout of covariance rows and data points: entry (pair i, field pair f, bin a) sits at (i·9 + f)·n + a. |
| CovarianceAssembly.FlatIndexSplit | pipeline/create_sacc_file.py:73-93 | The flat offset splits as i·9n + (f·n + a), with the in-block part below 9n and the offset below count·9n. |
| CovarianceAssembly.FullCovarianceOffDiagonal | pipeline/create_sacc_file.py:85-97 | For entries i < j, the covariance of data points (i, f, a) and (j, g, b) is the thinned file entry, in both orientations. |
| CovarianceAssembly.DiagonalBlockUpper | pipeline/create_sacc_file.py:90-97 | In a diagonal block, the entry for (f, a) ≤ (g, b) and its mirror both equal the thinned file entry of (f, g, a, b). |
| CovarianceAssembly.FullCovarianceDiagonalBlock | pipeline/create_sacc_file.py:95-97 | Inside diagonal block (i, i), lower-triangle entries are replaced by the mirrored upper entries; the file's lower triangle is discarded. |
| CovarianceAssembly.FullCovarianceBand | pipeline/create_sacc_file.py:78-97 | Every entry of the compiled covariance whose bin indices differ by more than 3 is 0. |
| SaccContainer.NumSims | pipeline/create_sacc_file.py:50-55 | `Nsims`: 1 for `--data`, `cov_num_sims` for `--sims`. |
| SaccContainer.ClDir | pipeline/create_sacc_file.py:50-55 | The spectrum directory: `cells` for `--data`, `cells_sims` for `--sims`. |
| SaccContainer.Sacc.constructor | pipeline/create_sacc_file.py:103 | A new container is empty. |
| SaccContainer.Sacc.AddTracer | pipeline/create_sacc_file.py:111-120 | Appends one tracer; data points and covariance are unchanged. |
| SaccContainer.Sacc.AddEllCl | pipeline/create_sacc_file.py:132-139 | Appends one point per multipole, in order; tracers and covariance are unchanged. |
| SaccContainer.Sacc.AddCovariance | pipeline/create_sacc_file.py:141 | Attaches the covariance; tracers and points are unchanged. |
| SaccContainer.MapSetTracer | pipeline/create_sacc_file.py:106-120 | The `NuMap` tracer `ms_s0` (temperature) or `ms_s2` (polarisation) of a map set, with its frequency tag, `lb`, a unit beam and bandpass `[1.0]`. |
| SaccContainer.Tracers | pipeline/create_sacc_file.py:105-120 | The tracers registered for the map sets, spin 0 then spin 2 for each map set in order. |
| SaccContainer.TracersLayout | pipeline/create_sacc_file.py:105-120 | Exactly two tracers per map set: `ms_s0` (spin 0) at 2k and `ms_s2` (spin 2) at 2k+1, both with the map set's frequency tag. |
| SaccContainer.AddMapSetTracers | pipeline/create_sacc_file.py:105-120 | The tracer loop appends exactly `Tracers(map_sets)` and changes nothing else. |
| SaccContainer.EllClPoints | pipeline/create_sacc_file.py:132-139 | The points one `add_ell_cl` call appends: one per multipole, with the call's data type and tracers. |
| SaccContainer.FieldPairPoints | pipeline/create_sacc_file.py:127-139 | The `add_ell_cl` call of field pair f of an entry: data type `cl_xy`, tracers of its fields' spins, `ell = lb`, `x = cells[fp]` and a unit window. |
| SaccContainer.CellFileName | pipeline/create_sacc_file.py:124 | The spectrum file of an entry for one realisation, under `cells` for data and `cells_sims` for simulations. |
| SaccContainer.DataPoints | pipeline/create_sacc_file.py:122-139 | The data vector of one realisation: entries in order, field pairs in order within an entry, bins in order within a field pair. |
| SaccContainer.PairPoints | pipeline/create_sacc_file.py:127-139 | The points of the first count field pairs of one entry, field pair by field pair in order: the closed form of the field-pair loop. |
| SaccContainer.PairPointsAt | pipeline/create_sacc_file.py:127-139 | Within one entry, point b of field pair f sits at f·n_bins + b. |
| SaccContainer.DataPointsLength | pipeline/create_sacc_file.py:122-139 | The data vector has n_pairs·9·n_bins points. |
| SaccContainer.DataPointInPair | pipeline/create_sacc_file.py:122-139 | Point (i, f, b) of the data vector is point b of field pair f of entry i. |
| SaccContainer.DataPointAt | pipeline/create_sacc_file.py:122-139 | The point at flat offset (i·9 + f)·n_bins + b has field pair f's data type, the tracers of entry i's map sets with f's spins, multipole lb[b] and the spectrum value `cells[fp][b]`. |
| SaccContainer.MapSetTracerRegistered | pipeline/create_sacc_file.py:105-135 | The tracer a field of a listed map set refers to is registered, with that field's spin. |
| SaccContainer.DataPointTracersRegistered | pipeline/create_sacc_file.py:105-135 | Every data point refers to registered tracers with its field pair's spins, when its entry's map sets are listed. |
| SaccContainer.AddPairPoints | pipeline/create_sacc_file.py:127-139 | The field-pair loop of one entry appends exactly that entry's points. |
| SaccContainer.AddDataPoints | pipeline/create_sacc_file.py:122-139 | The entry loop appends exactly the data vector `DataPoints`. |
| SaccContainer.BuildSacc | pipeline/create_sacc_file.py:103-141 | One container holds the map sets' tracers, then the data vector, then the given covariance. |
| SaccContainer.CompileRealisation | pipeline/create_sacc_file.py:99-146 | One pass of the realisation loop yields that realisation's output: its file name and its container. |
| SaccContainer.OutputFileName | pipeline/create_sacc_file.py:143-145 | The file name `saccs/cl_and_cov_sacc<suffix>.fits`. |
| SaccContainer.Output | pipeline/create_sacc_file.py:99-146 | What realisation id writes: its file name and a record of the tracers, its data vector and the compiled covariance. |
| SaccContainer.Compile | pipeline/create_sacc_file.py:99-146 | One output per realisation. Output id is named `saccs/cl_and_cov_sacc<suffix>.fits` and holds the tracers, that realisation's data vector and the compiled covariance. |
| SaccContainer.DataVectorMatchesCovariance | pipeline/create_sacc_file.py:122-141 | Every output's data vector length equals its covariance dimension, n_pairs·9·n_bins. |
| SaccContainer.OutputsDistinct | pipeline/create_sacc_file.py:99-146 | Distinct realisations are written to distinct files, with the same tracers and the same covariance. |
| Binning.Arange | legacy/utils_wmap_planck.py:231 | `arange(start, stop, step)` is empty iff start ≥ stop. Element i is start + i·step and below stop, and one more step reaches stop. |
| Binning.ArangeLength | legacy/utils_wmap_planck.py:231 | `arange` yields ceil((stop − start)/step) values. |
| Binning.CreateBinning | legacy/utils_wmap_planck.py:229-236 | Lows, highs and centres have the same, non-zero, length. |
| Binning.BinLows | legacy/utils_wmap_planck.py:231 | `bin_low` is 0, Δ, 2Δ, …, all below 3·nside, and there are ceil(3·nside/Δ) of them. |
| Binning.BinsContiguous | legacy/utils_wmap_planck.py:232 | Every bin but the last spans Δ multipoles, and bin_high[i] + 1 = bin_low[i+1]. |
| Binning.LastBin | legacy/utils_wmap_planck.py:231-233 | The last bin ends at 3·nside − 1 and holds between 1 and Δ multipoles. |
| Binning.BinCenters | legacy/utils_wmap_planck.py:234 | Each centre is equidistant from its bin's low and high, so it lies within the bin. |
| Binning.BinsOrdered | legacy/utils_wmap_planck.py:231-233 | A later bin starts after an earlier one ends. |
| Binning.BinsPartition | legacy/utils_wmap_planck.py:229-236 | Every multipole in [0, 3·nside) lies in bin ℓ div Δ and in no other bin. |
| Binning.BinOfMultipole | legacy/utils_wmap_planck.py:229-236 | Multipole ℓ in [0, 3·nside) lies in bin ℓ div Δ. |
| Binning.BinEdges | legacy/utils_wmap_planck.py:231-233 | Bin i starts at i·Δ and ends at i·Δ + Δ − 1, except the last, which ends at 3·nside − 1. |
| Binning.BinUnique | legacy/utils_wmap_planck.py:231-233 | No multipole lies in two different bins. |
| BandpowerWindow.Einsum | legacy/utils_wmap_planck.py:486 | The contraction has one row per output field and one entry per bin of that row. |
| BandpowerWindow.ContractionIsFlatSum | legacy/utils_wmap_planck.py:486 | The field-by-field sum over the first k input fields equals the dot product of the row-major flattenings of window row and input over (input field, ell), both of length k·nl. |
| BandpowerWindow.EinsumEntry | legacy/utils_wmap_planck.py:486 | binned[f][b] = Σ over g and l < nl of W[f][b][g][l]·vec[g][l], as one dot product of the flattened window row with the flattened input. |
| BandpowerWindow.DotScale | legacy/utils_wmap_planck.py:486 | Scaling one factor of a dot product by c scales the dot product by c. |
| BandpowerWindow.DotAdd | legacy/utils_wmap_planck.py:486 | A dot product with a sum is the sum of the dot products. |
| BandpowerWindow.EinsumScale | legacy/utils_wmap_planck.py:486 | Scaling the stacked input by c scales every entry of the contraction by c. |
| BandpowerWindow.EinsumAdd | legacy/utils_wmap_planck.py:486 | The contraction of a sum of stacked inputs is the sum of the contractions. |
| BandpowerWindow.WindowKey | legacy/utils_wmap_planck.py:466 | The window of a spin block is read under `bp_win_spin0xspin0`, `bp_win_spin0xspin2` or `bp_win_spin2xspin2`. |
| BandpowerWindow.InputPairs | legacy/utils_wmap_planck.py:469-484 | The spectra stacked as the window's input fields, in order: spin0xspin0 → [TT]; spin0xspin2 → [TE, TB]; spin2xspin2 → [EE, EB, EB, BB]. |
| BandpowerWindow.OutputPairs | legacy/utils_wmap_planck.py:488-497 | The keys the output rows are stored under, in row order: spin0xspin0 → [TT]; spin0xspin2 → [TE, TB]; spin2xspin2 → [EE, EB, BE, BB]. |
| BandpowerWindow.Stack | legacy/utils_wmap_planck.py:469-484 | The stacked input has one spectrum per input slot of the block, each of length nl. |
| BandpowerWindow.StackEntry | legacy/utils_wmap_planck.py:469-484 | Slot g, multipole l of the stack is entry l of the g-th input pair's spectrum, which truncates it to nl. |
| BandpowerWindow.CombOfOutput | legacy/utils_wmap_planck.py:488-497 | Each stored field pair of a block is read from its own output slot of that block's contraction. |
| BandpowerWindow.BinnedSpectrum | legacy/utils_wmap_planck.py:486-497 | The bandpowers stored under (val type, fp): the row of fp's output slot in the contraction of its spin block's window with that block's stacked input. |
| BandpowerWindow.StoreBlock | legacy/utils_wmap_planck.py:488-497 | Storing a block adds the keys (vt, fp) for the block's output pairs, with their slots' rows, and keeps every other key. |
| BandpowerWindow.BinValidationPowerSpectra | legacy/utils_wmap_planck.py:457-499 | The result has exactly the 14 keys {tf_val, cosmo} × {TT, TE, TB, EE, EB, BE, BB}, and each holds its bandpowers. |
| BandpowerWindow.StackScale | legacy/utils_wmap_planck.py:469-484 | Scaling every input spectrum by c scales the stacked input of every block by c. |
| BandpowerWindow.StackAdd | legacy/utils_wmap_planck.py:469-484 | The stacked input of a sum of spectra is the sum of the stacked inputs. |
| BandpowerWindow.BinnedScale | legacy/utils_wmap_planck.py:462-497 | Scaling all input spectra by c scales every stored bandpower by c; the lengths agree. |
| BandpowerWindow.BinnedAdd | legacy/utils_wmap_planck.py:462-497 | The bandpowers of a sum of input spectra are the sums of the bandpowers; the lengths agree. |
| BandpowerWindow.BinnedZero | legacy/utils_wmap_planck.py:486 | All-zero spectra give all-zero bandpowers. |
| BandpowerWindow.BlockIndependence | legacy/utils_wmap_planck.py:465-497 | A stored bandpower depends only on its own value type, the input pairs of its spin block and their first nl multipoles. |
| BandpowerWindow.InputsRead | legacy/utils_wmap_planck.py:469-484 | TT reads TT; TE and TB read TE and TB; EE, EB, BE and BB read EE, EB (twice) and BB; BE is never read. |
| SplitPairs.Routed | legacy/utils_wmap_planck.py:405-412 | The pairs of the input list, in input order, that go to a given target (cross, auto or dropped). |
| SplitPairs.Classify | legacy/utils_wmap_planck.py:406-412 | A pair goes to cross iff it extends both names and is a cross pair. It goes to auto iff it extends both, is not a cross pair, and is an auto pair. |
| SplitPairs.GetSplitPairs | legacy/utils_wmap_planck.py:400-414 | The loop returns both lists: the input pairs routed to cross, and those routed to auto, each in input order. |
| SplitPairs.RoutedConcat | legacy/utils_wmap_planck.py:405-412 | Routing distributes over concatenation, so input order is kept within each list. |
| SplitPairs.RoutedCount | legacy/utils_wmap_planck.py:405-412 | A pair occurs in its target list as often as in the input, and in other lists not at all. |
| SplitPairs.RoutedMembers | legacy/utils_wmap_planck.py:405-412 | A pair is in a list iff it is an input pair routed there. |
| SplitPairs.SplitPairsContents | legacy/utils_wmap_planck.py:404-414 | Kept pairs extend both names. A pair in both name lists goes only to cross, and a pair in neither is dropped. |
| SplitPairs.RoutedPartition | legacy/utils_wmap_planck.py:405-412 | Every input pair lands in exactly one of cross, auto or dropped. |

## Left out

- File and directory I/O in `main`: the `np.load` of covariance and spectrum files, and directory creation. The files are input maps keyed by their path relative to the output directory.
- `save_fits` is modelled as returning the list of (file name, container contents) pairs, one per realisation.
- The `sacc` library is modelled only as far as the compiler uses it: tracers, points and covariance are appended or attached. Its window objects, its FITS layout and its `overwrite` flag are not modelled.
- `BBmeta`: the map sets, the coadded pair entries, the frequency tags and `cov_num_sims` are parameters. `freq_tag_from_map_set` is a map lookup with an integer tag.
- `nmt.NmtBin` and its effective multipoles: `lb` is an input sequence. In `bin_validation_power_spectra` only `lmax` is used, as a parameter.
- Command-line parsing. The source fails when neither `--data` nor `--sims` is given, because `Nsims` is unbound; `Mode` has only the two cases.
- Floating-point rounding: spectra, windows and covariances are exact reals.
- Thinning.ThinCovariance: requires order ≥ 0. A negative order gives `multi_eye` an empty offset list, where numpy returns a scalar 0, not a matrix. The compiler never does this, since it always passes 3.
- Binning.CreateBinning: requires nside ≥ 1 and Δ ≥ 1, as in every use. Outside that range numpy raises in most cases: a zero step, or an empty `arange` indexed at `[-1]` (nside ≤ 0 with Δ > 0, or nside ≥ 0 with Δ < 0). With nside < 0 and Δ < 0 the `arange` counts down (nside = −1, Δ = −1 gives lows 0, −1, −2) and the function returns descending bins without raising. Neither case is modelled.
- BandpowerWindow.BinValidationPowerSpectra: requires each spectrum to have at least lmax + 1 entries and the windows to have lmax + 1 multipoles. A TT spectrum shorter than lmax + 1 makes the `reshape(1, nl)` at `legacy/utils_wmap_planck.py:471` raise, so the TT requirement matches the code. In the spin-0×spin-2 and spin-2×spin-2 blocks numpy also accepts spectra that are all equally shorter than lmax + 1 when the block's window has that many multipoles; the model does not cover that case.
- `pipeline/mocker.py` is not part of this model: random map simulation, noise models and map files.
- `pipeline/misc/get_binning.py` is not part of this model: a command-line wrapper around a binning variant.
- The other helpers of `legacy/utils_wmap_planck.py` are not part of this model: theory spectra, beams, noise curves, healpy and pymaster operations, plotting and job templating. They are floating-point numerics, foreign libraries or file I/O.
