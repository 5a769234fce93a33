/** Assembly of the full covariance matrix of the sacc compilation: each
    per-pair block is tiled from its 9 x 9 field-pair sub-blocks and thinned,
    the blocks of pair entries i <= j are placed in a zeroed matrix, and the
    result is symmetrised from its upper triangle. */
module CovarianceAssembly {
  import opened Arith
  import opened Matrices
  import opened SaccLabels
  import opened Thinning

  /** A power-spectrum pair entry: an ordered pair of map-set names. */
  type Pair = (string, string)

  /** Band half-width the compiler always thins with. */
  const ThinOrder: nat := 3

  /** Key of sub-block (p, q) in a covariance file: field pair p followed by field pair q. */
  function CovKey(p: nat, q: nat): string
    requires p < 9 && q < 9
  {
    FieldPairs()[p] + FieldPairs()[q]
  }

  /** Path, relative to the output directory, of the covariance of entries a and b. */
  function CovFileName(a: Pair, b: Pair): string
  {
    "covariances/mc_cov_" + a.0 + "_x_" + a.1 + "_" + b.0 + "_x_" + b.1 + ".npz"
  }

  /** A loaded covariance file holds all 81 keys, each an n x n matrix. */
  predicate CovDictShaped(d: map<string, Matrix>, n: nat)
  {
    forall p, q | 0 <= p < 9 && 0 <= q < 9 :: CovKey(p, q) in d && IsMatrix(d[CovKey(p, q)], n, n)
  }

  predicate HasCovFile(covFiles: map<string, map<string, Matrix>>, a: Pair, b: Pair, n: nat)
  {
    CovFileName(a, b) in covFiles && CovDictShaped(covFiles[CovFileName(a, b)], n)
  }

  /** Every pair of entries i <= j has its covariance file. */
  predicate CovFilesPresent(ps: seq<Pair>, covFiles: map<string, map<string, Matrix>>, n: nat)
  {
    forall i, j | 0 <= i <= j < |ps| :: HasCovFile(covFiles, ps[i], ps[j], n)
  }

  /** Index facts of a row or column of a (blocks * n)-sized block matrix. */
  lemma InBlockIff(r: int, p: int, n: int)
    requires n > 0 && r >= 0 && p >= 0
    ensures (p * n <= r < p * n + n) <==> r / n == p
    ensures r / n == p ==> r % n == r - p * n
  {
    if p * n <= r < p * n + n {
      DivModUnique(r, n, p, r - p * n);
    }
    assert r == r / n * n + r % n;
  }

  // ----- One per-pair block -----

  function TiledEntry(d: map<string, Matrix>, n: nat, r: nat, c: nat): real
    requires CovDictShaped(d, n) && r < 9 * n && c < 9 * n
  {
    DivBound(r, 9, n);
    DivBound(c, 9, n);
    d[CovKey(r / n, c / n)][r % n][c % n]
  }

  /** The per-pair block before thinning: sub-block (p, q) of the 9 x 9 grid holds
      the file's entry CovKey(p, q). */
  function TiledBlock(d: map<string, Matrix>, n: nat): (t: Matrix)
    requires CovDictShaped(d, n)
    ensures IsMatrix(t, 9 * n, 9 * n)
  {
    seq(9 * n, r requires 0 <= r < 9 * n => seq(9 * n, c requires 0 <= c < 9 * n => TiledEntry(d, n, r, c)))
  }

  /** Entry (a, b) of sub-block (p, q) sits at row p * n + a, column q * n + b. */
  lemma TiledBlockAt(d: map<string, Matrix>, n: nat, p: nat, q: nat, a: nat, b: nat)
    requires CovDictShaped(d, n) && p < 9 && q < 9 && a < n && b < n
    ensures p * n + a < 9 * n && q * n + b < 9 * n
    ensures TiledBlock(d, n)[p * n + a][q * n + b] == d[CovKey(p, q)][a][b]
  {
    BlockInRange(p, a, n, 9);
    BlockInRange(q, b, n, 9);
    BlockIndex(p, a, n);
    BlockIndex(q, b, n);
  }

  /** Slice assignment dst[row0:row0+h, col0:col0+w] = src. */
  method CopyBlockInto(dst: array2<real>, row0: nat, col0: nat, src: Matrix, h: nat, w: nat, ghost before: Matrix)
    requires IsMatrix(src, h, w) && IsMatrix(before, dst.Length0, dst.Length1)
    requires row0 + h <= dst.Length0 && col0 + w <= dst.Length1
    requires forall r, c | 0 <= r < dst.Length0 && 0 <= c < dst.Length1 :: dst[r, c] == before[r][c]
    modifies dst
    ensures forall r, c | 0 <= r < dst.Length0 && 0 <= c < dst.Length1 ::
      dst[r, c] == if row0 <= r < row0 + h && col0 <= c < col0 + w then src[r - row0][c - col0] else before[r][c]
  {
    for i := 0 to h
      invariant forall r, c | 0 <= r < dst.Length0 && 0 <= c < dst.Length1 ::
        dst[r, c] == if row0 <= r < row0 + i && col0 <= c < col0 + w then src[r - row0][c - col0] else before[r][c]
    {
      for j := 0 to w
        invariant forall r, c | 0 <= r < dst.Length0 && 0 <= c < dst.Length1 ::
          dst[r, c] == if (row0 <= r < row0 + i && col0 <= c < col0 + w) || (r == row0 + i && col0 <= c < col0 + j)
                       then src[r - row0][c - col0] else before[r][c]
      {
        dst[row0 + i, col0 + j] := src[i][j];
      }
    }
  }

  /** Blocks (p', q') filled before (p, q) in row-major order. */
  predicate Before(p': int, q': int, p: int, q: int)
  {
    p' < p || (p' == p && q' < q)
  }

  /** Cov holds the sub-blocks filled before (p, q), and zeros elsewhere. */
  ghost predicate TiledUpTo(cov: array2<real>, d: map<string, Matrix>, n: nat, p: nat, q: nat)
    requires CovDictShaped(d, n)
    reads cov
  {
    && cov.Length0 == 9 * n && cov.Length1 == 9 * n
    && forall r, c | 0 <= r < 9 * n && 0 <= c < 9 * n ::
         cov[r, c] == if Before(r / n, c / n, p, q) then TiledEntry(d, n, r, c) else 0.0
  }

  /** One row of sub-blocks: the inner loop over the second field pair. */
  method TileBlockRow(cov: array2<real>, d: map<string, Matrix>, n: nat, p: nat)
    requires CovDictShaped(d, n) && p < 9 && TiledUpTo(cov, d, n, p, 0)
    modifies cov
    ensures TiledUpTo(cov, d, n, p + 1, 0)
  {
    var size := 9 * n;
    for q := 0 to 9
      invariant TiledUpTo(cov, d, n, p, q)
    {
      if n > 0 {
        BlockInRange(p, n - 1, n, 9);
        BlockInRange(q, n - 1, n, 9);
      }
      ghost var before := ToSeq(cov);
      CopyBlockInto(cov, p * n, q * n, d[CovKey(p, q)], n, n, before);
      forall r, c | 0 <= r < size && 0 <= c < size
        ensures cov[r, c] == if Before(r / n, c / n, p, q + 1) then TiledEntry(d, n, r, c) else 0.0
      {
        InBlockIff(r, p, n);
        InBlockIff(c, q, n);
      }
    }
    forall r, c | 0 <= r < size && 0 <= c < size
      ensures cov[r, c] == if Before(r / n, c / n, p + 1, 0) then TiledEntry(d, n, r, c) else 0.0
    {
      DivBound(c, 9, n);
    }
  }

  /** Tiles the 81 field-pair sub-blocks of one covariance file into a zeroed
      (9 n) x (9 n) array. */
  method TileBlock(d: map<string, Matrix>, n: nat) returns (cov: array2<real>)
    requires CovDictShaped(d, n)
    ensures fresh(cov) && ToSeq(cov) == TiledBlock(d, n)
  {
    cov := new real[9 * n, 9 * n]((_, _) => 0.0);
    TiledNothing(cov, d, n);
    for p := 0 to 9
      invariant TiledUpTo(cov, d, n, p, 0)
    {
      TileBlockRow(cov, d, n, p);
    }
    TiledAll(cov, d, n);
  }

  /** A zeroed array holds no sub-block yet. */
  lemma TiledNothing(cov: array2<real>, d: map<string, Matrix>, n: nat)
    requires CovDictShaped(d, n) && cov.Length0 == 9 * n && cov.Length1 == 9 * n
    requires forall r, c | 0 <= r < 9 * n && 0 <= c < 9 * n :: cov[r, c] == 0.0
    ensures TiledUpTo(cov, d, n, 0, 0)
  {
  }

  /** Once all nine rows of sub-blocks are filled, the array is the tiled block. */
  lemma TiledAll(cov: array2<real>, d: map<string, Matrix>, n: nat)
    requires CovDictShaped(d, n) && TiledUpTo(cov, d, n, 9, 0)
    ensures ToSeq(cov) == TiledBlock(d, n)
  {
    forall r | 0 <= r < 9 * n
      ensures ToSeq(cov)[r] == TiledBlock(d, n)[r]
    {
      DivBound(r, 9, n);
    }
  }

  // ----- Thinned per-pair blocks -----

  /** The block of pair entries (a, b) as the compiler stores it: tiled, then
      thinned with order ThinOrder. */
  function PairBlock(covFiles: map<string, map<string, Matrix>>, a: Pair, b: Pair, n: nat): (m: Matrix)
    requires HasCovFile(covFiles, a, b, n)
    ensures IsMatrix(m, 9 * n, 9 * n)
  {
    ThinCovariance(TiledBlock(covFiles[CovFileName(a, b)], n), n, 9, Some(ThinOrder))
  }

  /** Entry (a, b) of sub-block (f, g) of a stored pair block: the sub-block's
      entry when the bins are at most ThinOrder apart, zero otherwise. */
  lemma PairBlockAt(covFiles: map<string, map<string, Matrix>>, x: Pair, y: Pair, n: nat,
                    f: nat, g: nat, a: nat, b: nat)
    requires HasCovFile(covFiles, x, y, n) && f < 9 && g < 9 && a < n && b < n
    ensures f * n + a < 9 * n && g * n + b < 9 * n
    ensures PairBlock(covFiles, x, y, n)[f * n + a][g * n + b]
         == if Abs(a - b) <= ThinOrder then covFiles[CovFileName(x, y)][CovKey(f, g)][a][b] else 0.0
  {
    var d := covFiles[CovFileName(x, y)];
    ThinningPerSubBlock(TiledBlock(d, n), n, 9, ThinOrder, f, g, a, b, f * n + a, g * n + b);
    TiledBlockAt(d, n, f, g, a, b);
  }

  /** The covs dictionary of the compiler: loads, tiles and thins the block of
      every pair of entries i <= j, keyed by the two entries. */
  method BuildPairBlocks(ps: seq<Pair>, covFiles: map<string, map<string, Matrix>>, n: nat)
    returns (covs: map<(Pair, Pair), Matrix>)
    requires CovFilesPresent(ps, covFiles, n)
    ensures forall i, j | 0 <= i <= j < |ps| :: (ps[i], ps[j]) in covs
    ensures UpperKeys(covs, ps)
    ensures forall key | key in covs ::
      HasCovFile(covFiles, key.0, key.1, n) && covs[key] == PairBlock(covFiles, key.0, key.1, n)
  {
    covs := map[];
    ghost var at: map<(Pair, Pair), (nat, nat)> := map[];
    for i := 0 to |ps|
      invariant RowsStored(covs, ps, i)
      invariant UpperKeysAt(covs, ps, at)
      invariant BlocksStored(covs, covFiles, n)
    {
      ghost var before := covs;
      covs, at := BuildPairRow(ps, covFiles, n, i, covs, at);
      RowsStoredStep(before, covs, ps, i);
    }
    UpperKeysOfAt(covs, ps, at);
  }

  /** Rows 0 .. i - 1 are stored: covs has the key (ps[i'], ps[j']) for all i' < i, j' >= i'. */
  ghost predicate RowsStored(covs: map<(Pair, Pair), Matrix>, ps: seq<Pair>, i: nat)
  {
    forall i', j' | 0 <= i' < i && i' <= j' < |ps| :: (ps[i'], ps[j']) in covs
  }

  /** Keeping the stored keys and adding row i stores rows 0 .. i. */
  lemma RowsStoredStep(covs0: map<(Pair, Pair), Matrix>, covs: map<(Pair, Pair), Matrix>, ps: seq<Pair>, i: nat)
    requires RowsStored(covs0, ps, i) && covs0.Keys <= covs.Keys
    requires forall j | i <= j < |ps| :: (ps[i], ps[j]) in covs
    ensures RowsStored(covs, ps, i + 1)
  {
  }

  /** One pass of the outer loop: the blocks (ps[i], ps[j]) for j >= i are
      stored, j < i is skipped, and every block stored before is kept. */
  method BuildPairRow(ps: seq<Pair>, covFiles: map<string, map<string, Matrix>>, n: nat, i: nat,
                      covs0: map<(Pair, Pair), Matrix>, ghost at0: map<(Pair, Pair), (nat, nat)>)
    returns (covs: map<(Pair, Pair), Matrix>, ghost at: map<(Pair, Pair), (nat, nat)>)
    requires i < |ps|
    requires forall j {:trigger HasCovFile(covFiles, ps[i], ps[j], n)} | i <= j < |ps| :: HasCovFile(covFiles, ps[i], ps[j], n)
    requires UpperKeysAt(covs0, ps, at0) && BlocksStored(covs0, covFiles, n)
    ensures covs0.Keys <= covs.Keys
    ensures forall j | i <= j < |ps| :: (ps[i], ps[j]) in covs
    ensures UpperKeysAt(covs, ps, at) && BlocksStored(covs, covFiles, n)
  {
    covs, at := covs0, at0;
    for j := 0 to |ps|
      invariant covs0.Keys <= covs.Keys
      invariant forall j' | i <= j' < j :: (ps[i], ps[j']) in covs
      invariant UpperKeysAt(covs, ps, at)
      invariant BlocksStored(covs, covFiles, n)
    {
      if i > j {
        continue;
      }
      var blk := ComputePairBlock(covFiles, ps[i], ps[j], n);
      StoreStep(covs, covFiles, ps[i], ps[j], n, blk);
      UpperKeysStep(covs, ps, at, i, j, blk);
      covs, at := covs[(ps[i], ps[j]) := blk], at[(ps[i], ps[j]) := (i, j)];
    }
  }

  /** Every key of covs is a pair of entries (ps[i], ps[j]) with i <= j: the
      compiler skips i > j. */
  ghost predicate UpperKeys(covs: map<(Pair, Pair), Matrix>, ps: seq<Pair>)
  {
    forall key | key in covs :: exists i, j | 0 <= i <= j < |ps| :: key == (ps[i], ps[j])
  }

  /** UpperKeys with the indices of every key recorded in at. */
  ghost predicate UpperKeysAt(covs: map<(Pair, Pair), Matrix>, ps: seq<Pair>, at: map<(Pair, Pair), (nat, nat)>)
  {
    forall key | key in covs ::
      key in at && at[key].0 <= at[key].1 < |ps| && key == (ps[at[key].0], ps[at[key].1])
  }

  lemma UpperKeysOfAt(covs: map<(Pair, Pair), Matrix>, ps: seq<Pair>, at: map<(Pair, Pair), (nat, nat)>)
    requires UpperKeysAt(covs, ps, at)
    ensures UpperKeys(covs, ps)
  {
    forall key | key in covs
      ensures exists i, j | 0 <= i <= j < |ps| :: key == (ps[i], ps[j])
    {
      var i, j := at[key].0, at[key].1;
      assert key == (ps[i], ps[j]);
    }
  }

  /** Storing the block of (ps[i], ps[j]) with i <= j adds only an upper key. */
  lemma UpperKeysStep(covs: map<(Pair, Pair), Matrix>, ps: seq<Pair>, at: map<(Pair, Pair), (nat, nat)>,
                      i: nat, j: nat, blk: Matrix)
    requires UpperKeysAt(covs, ps, at) && i <= j < |ps|
    ensures UpperKeysAt(covs[(ps[i], ps[j]) := blk], ps, at[(ps[i], ps[j]) := (i, j)])
  {
  }

  /** Every stored block is the thinned block of its key's covariance file. */
  ghost predicate BlocksStored(covs: map<(Pair, Pair), Matrix>, covFiles: map<string, map<string, Matrix>>, n: nat)
  {
    forall key {:trigger covs[key]} | key in covs ::
      HasCovFile(covFiles, key.0, key.1, n) && covs[key] == PairBlock(covFiles, key.0, key.1, n)
  }

  /** Storing the block of (x, y) keeps every stored block correct. */
  lemma StoreStep(covs: map<(Pair, Pair), Matrix>, covFiles: map<string, map<string, Matrix>>,
                  x: Pair, y: Pair, n: nat, blk: Matrix)
    requires BlocksStored(covs, covFiles, n)
    requires HasCovFile(covFiles, x, y, n) && blk == PairBlock(covFiles, x, y, n)
    ensures BlocksStored(covs[(x, y) := blk], covFiles, n)
  {
  }

  /** One stored block: the covariance file of (x, y), tiled and thinned. */
  method ComputePairBlock(covFiles: map<string, map<string, Matrix>>, x: Pair, y: Pair, n: nat)
    returns (blk: Matrix)
    requires HasCovFile(covFiles, x, y, n)
    ensures blk == PairBlock(covFiles, x, y, n)
  {
    var d := covFiles[CovFileName(x, y)];
    var cov := TileBlock(d, n);
    blk := ThinCovariance(ToSeq(cov), n, 9, Some(ThinOrder));
  }

  // ----- The full matrix before symmetrisation -----

  /** Entry (r, c) of the assembled matrix: blocks of entries i <= j hold the
      stored pair block, blocks with i > j are left at zero. */
  function UpperEntry(ps: seq<Pair>, covFiles: map<string, map<string, Matrix>>, n: nat, r: nat, c: nat): real
    requires CovFilesPresent(ps, covFiles, n)
    requires r < |ps| * (9 * n) && c < |ps| * (9 * n)
  {
    var b := 9 * n;
    DivBound(r, |ps|, b);
    DivBound(c, |ps|, b);
    if r / b <= c / b then PairBlock(covFiles, ps[r / b], ps[c / b], n)[r % b][c % b] else 0.0
  }

  function UpperBlocks(ps: seq<Pair>, covFiles: map<string, map<string, Matrix>>, n: nat): (f: Matrix)
    requires CovFilesPresent(ps, covFiles, n)
    ensures IsMatrix(f, |ps| * (9 * n), |ps| * (9 * n))
  {
    var size := |ps| * (9 * n);
    seq(size, r requires 0 <= r < size =>
      seq(size, c requires 0 <= c < size => UpperEntry(ps, covFiles, n, r, c)))
  }

  /** Only blocks i <= j are written, at row offset i * 9n and column offset
      j * 9n; every entry of a block with i > j stays zero. */
  lemma UpperBlocksLayout(ps: seq<Pair>, covFiles: map<string, map<string, Matrix>>, n: nat,
                          i: nat, j: nat, a: nat, b: nat)
    requires CovFilesPresent(ps, covFiles, n)
    requires i < |ps| && j < |ps| && a < 9 * n && b < 9 * n
    ensures i * (9 * n) + a < |ps| * (9 * n) && j * (9 * n) + b < |ps| * (9 * n)
    ensures UpperBlocks(ps, covFiles, n)[i * (9 * n) + a][j * (9 * n) + b]
         == if i <= j then PairBlock(covFiles, ps[i], ps[j], n)[a][b] else 0.0
  {
    UpperEntryAt(ps, covFiles, n, i, j, a, b, i * (9 * n) + a, j * (9 * n) + b);
  }

  /** UpperEntry at (row, col) = (i * 9n + a, j * 9n + b): entry (a, b) of the
      stored block (ps[i], ps[j]) when i <= j, else zero. */
  lemma UpperEntryAt(ps: seq<Pair>, covFiles: map<string, map<string, Matrix>>, n: nat,
                     i: nat, j: nat, a: nat, b: nat, row: nat, col: nat)
    requires CovFilesPresent(ps, covFiles, n)
    requires i < |ps| && j < |ps| && a < 9 * n && b < 9 * n
    requires row == i * (9 * n) + a && col == j * (9 * n) + b
    ensures row < |ps| * (9 * n) && col < |ps| * (9 * n)
    ensures UpperEntry(ps, covFiles, n, row, col) == if i <= j then PairBlock(covFiles, ps[i], ps[j], n)[a][b] else 0.0
  {
    BlockInRange(i, a, 9 * n, |ps|);
    BlockInRange(j, b, 9 * n, |ps|);
    BlockIndex(i, a, 9 * n);
    BlockIndex(j, b, 9 * n);
  }

  ghost predicate PlacedUpTo(full: array2<real>, ps: seq<Pair>, covFiles: map<string, map<string, Matrix>>,
                             n: nat, i: nat, j: nat)
    requires CovFilesPresent(ps, covFiles, n)
    reads full
  {
    var size := |ps| * (9 * n);
    && full.Length0 == size && full.Length1 == size
    && forall r, c | 0 <= r < size && 0 <= c < size ::
         full[r, c] == if Before(r / (9 * n), c / (9 * n), i, j) then UpperEntry(ps, covFiles, n, r, c) else 0.0
  }

  /** The covs dictionary as BuildPairBlocks leaves it. */
  ghost predicate StoredBlocks(ps: seq<Pair>, covFiles: map<string, map<string, Matrix>>, n: nat,
                               covs: map<(Pair, Pair), Matrix>)
  {
    && (forall i, j | 0 <= i <= j < |ps| :: (ps[i], ps[j]) in covs)
    && (forall key | key in covs ::
          HasCovFile(covFiles, key.0, key.1, n) && covs[key] == PairBlock(covFiles, key.0, key.1, n))
  }

  /** One row of pair blocks: the inner loop over j, skipping j < i. */
  method PlacePairRow(full: array2<real>, ps: seq<Pair>, covFiles: map<string, map<string, Matrix>>,
                      covs: map<(Pair, Pair), Matrix>, n: nat, i: nat)
    requires CovFilesPresent(ps, covFiles, n) && StoredBlocks(ps, covFiles, n, covs)
    requires i < |ps| && PlacedUpTo(full, ps, covFiles, n, i, 0)
    modifies full
    ensures PlacedUpTo(full, ps, covFiles, n, i + 1, 0)
  {
    for j := 0 to |ps|
      invariant PlacedUpTo(full, ps, covFiles, n, i, j)
    {
      if i > j {
        PlacedSkip(full, ps, covFiles, n, i, j);
        continue;
      }
      PlacePairBlock(full, ps, covFiles, covs[(ps[i], ps[j])], n, i, j);
    }
    PlacedRow(full, ps, covFiles, n, i);
  }

  /** Block (i, j) with i > j is left zero, which is what UpperEntry holds there. */
  lemma PlacedSkip(full: array2<real>, ps: seq<Pair>, covFiles: map<string, map<string, Matrix>>,
                   n: nat, i: nat, j: nat)
    requires CovFilesPresent(ps, covFiles, n) && j < i < |ps| && PlacedUpTo(full, ps, covFiles, n, i, j)
    ensures PlacedUpTo(full, ps, covFiles, n, i, j + 1)
  {
    var b := 9 * n;
    var size := |ps| * b;
    forall r, c | 0 <= r < size && 0 <= c < size
      ensures full[r, c] == if Before(r / b, c / b, i, j + 1) then UpperEntry(ps, covFiles, n, r, c) else 0.0
    {
      if r / b == i && c / b == j {
        assert UpperEntry(ps, covFiles, n, r, c) == 0.0;
      }
    }
  }

  /** full_cov[i*9n:(i+1)*9n, j*9n:(j+1)*9n] = covs[(ps[i], ps[j])], for i <= j. */
  method PlacePairBlock(full: array2<real>, ps: seq<Pair>, covFiles: map<string, map<string, Matrix>>,
                        blk: Matrix, n: nat, i: nat, j: nat)
    requires CovFilesPresent(ps, covFiles, n) && i <= j < |ps|
    requires blk == PairBlock(covFiles, ps[i], ps[j], n)
    requires PlacedUpTo(full, ps, covFiles, n, i, j)
    modifies full
    ensures PlacedUpTo(full, ps, covFiles, n, i, j + 1)
  {
    if n == 0 {
      return;
    }
    var b := 9 * n;
    var row0, col0 := i * b, j * b;
    ghost var before := ToSeq(full);
    PlacedSnapshot(full, before, ps, covFiles, n, i, j, b, row0, col0);
    CopyBlockInto(full, row0, col0, blk, b, b, before);
    PlacedBlockStep(full, before, ps, covFiles, n, i, j, blk, b, row0, col0);
  }

  /** A snapshot of a matrix placed up to (i, j) holds its entries, and block
      (i, j) of side b at (row0, col0) fits in the matrix. */
  lemma PlacedSnapshot(full: array2<real>, before: Matrix, ps: seq<Pair>,
                       covFiles: map<string, map<string, Matrix>>, n: nat, i: nat, j: nat,
                       b: nat, row0: nat, col0: nat)
    requires CovFilesPresent(ps, covFiles, n) && n > 0 && i < |ps| && j < |ps|
    requires b == 9 * n && row0 == i * b && col0 == j * b
    requires PlacedUpTo(full, ps, covFiles, n, i, j) && before == ToSeq(full)
    ensures row0 + b <= full.Length0 && col0 + b <= full.Length1
    ensures IsMatrix(before, full.Length0, full.Length1)
    ensures forall r, c | 0 <= r < full.Length0 && 0 <= c < full.Length1 :: before[r][c] == full[r, c]
    ensures PlacedUpToSeq(before, ps, covFiles, n, i, j)
  {
    BlockInRange(i, b - 1, b, |ps|);
    BlockInRange(j, b - 1, b, |ps|);
  }

  /** PlacedUpTo, stated of a snapshot of the array. */
  ghost predicate PlacedUpToSeq(m: Matrix, ps: seq<Pair>, covFiles: map<string, map<string, Matrix>>,
                                n: nat, i: nat, j: nat)
    requires CovFilesPresent(ps, covFiles, n) && n > 0
  {
    var size := |ps| * (9 * n);
    && IsMatrix(m, size, size)
    && forall r, c | 0 <= r < size && 0 <= c < size ::
         m[r][c] == if Before(r / (9 * n), c / (9 * n), i, j) then UpperEntry(ps, covFiles, n, r, c) else 0.0
  }

  /** Copying block (i, j), i <= j, of side b = 9 n at (row0, col0) = (i b, j b)
      into a matrix placed up to (i, j) places it up to (i, j + 1). */
  lemma PlacedBlockStep(full: array2<real>, before: Matrix, ps: seq<Pair>,
                        covFiles: map<string, map<string, Matrix>>, n: nat, i: nat, j: nat, blk: Matrix,
                        b: nat, row0: nat, col0: nat)
    requires CovFilesPresent(ps, covFiles, n) && n > 0 && i <= j < |ps|
    requires b == 9 * n && row0 == i * b && col0 == j * b
    requires blk == PairBlock(covFiles, ps[i], ps[j], n)
    requires full.Length0 == |ps| * (9 * n) && full.Length1 == |ps| * (9 * n)
    requires PlacedUpToSeq(before, ps, covFiles, n, i, j)
    requires forall r, c | 0 <= r < full.Length0 && 0 <= c < full.Length1 ::
      full[r, c] == if row0 <= r < row0 + b && col0 <= c < col0 + b then blk[r - row0][c - col0] else before[r][c]
    ensures PlacedUpTo(full, ps, covFiles, n, i, j + 1)
  {
    var size := |ps| * (9 * n);
    forall r, c | 0 <= r < size && 0 <= c < size
      ensures full[r, c] == if Before(r / (9 * n), c / (9 * n), i, j + 1) then UpperEntry(ps, covFiles, n, r, c) else 0.0
    {
      PlacedEntryStep(ps, covFiles, n, i, j, r, c, blk, b, row0, col0, before[r][c], full[r, c]);
    }
  }

  /** Entry (r, c) after copying block (i, j), i <= j: it holds UpperEntry once
      block (i, j) counts as placed. */
  lemma PlacedEntryStep(ps: seq<Pair>, covFiles: map<string, map<string, Matrix>>, n: nat,
                        i: nat, j: nat, r: nat, c: nat, blk: Matrix, b: nat, row0: nat, col0: nat,
                        before: real, after: real)
    requires CovFilesPresent(ps, covFiles, n) && n > 0 && i <= j < |ps|
    requires b == 9 * n && row0 == i * b && col0 == j * b
    requires r < |ps| * (9 * n) && c < |ps| * (9 * n)
    requires blk == PairBlock(covFiles, ps[i], ps[j], n)
    requires before == if Before(r / (9 * n), c / (9 * n), i, j) then UpperEntry(ps, covFiles, n, r, c) else 0.0
    requires after == if row0 <= r < row0 + b && col0 <= c < col0 + b then blk[r - row0][c - col0] else before
    ensures after == if Before(r / (9 * n), c / (9 * n), i, j + 1) then UpperEntry(ps, covFiles, n, r, c) else 0.0
  {
    InBlockIff(r, i, b);
    InBlockIff(c, j, b);
  }

  /** After the last j, row i of blocks is complete. */
  lemma PlacedRow(full: array2<real>, ps: seq<Pair>, covFiles: map<string, map<string, Matrix>>, n: nat, i: nat)
    requires CovFilesPresent(ps, covFiles, n) && i < |ps| && PlacedUpTo(full, ps, covFiles, n, i, |ps|)
    ensures PlacedUpTo(full, ps, covFiles, n, i + 1, 0)
  {
    var b := 9 * n;
    var size := |ps| * b;
    forall r, c | 0 <= r < size && 0 <= c < size
      ensures full[r, c] == if Before(r / b, c / b, i + 1, 0) then UpperEntry(ps, covFiles, n, r, c) else 0.0
    {
      DivBound(c, |ps|, b);
    }
  }

  /** full_cov: a zeroed matrix of side |ps| * 9n with the stored block of every
      pair i <= j placed at offsets (i * 9n, j * 9n). */
  method PlacePairBlocks(ps: seq<Pair>, covFiles: map<string, map<string, Matrix>>,
                         covs: map<(Pair, Pair), Matrix>, n: nat) returns (full: array2<real>)
    requires CovFilesPresent(ps, covFiles, n) && StoredBlocks(ps, covFiles, n, covs)
    ensures fresh(full) && full.Length0 == full.Length1 == |ps| * (9 * n)
    ensures ToSeq(full) == UpperBlocks(ps, covFiles, n)
  {
    var size := |ps| * (9 * n);
    full := new real[size, size]((_, _) => 0.0);
    PlacedNothing(full, ps, covFiles, n);
    for i := 0 to |ps|
      invariant PlacedUpTo(full, ps, covFiles, n, i, 0)
    {
      PlacePairRow(full, ps, covFiles, covs, n, i);
    }
    PlacedAll(full, ps, covFiles, n);
  }

  /** A zeroed matrix holds no block yet. */
  lemma PlacedNothing(full: array2<real>, ps: seq<Pair>, covFiles: map<string, map<string, Matrix>>, n: nat)
    requires CovFilesPresent(ps, covFiles, n)
    requires full.Length0 == |ps| * (9 * n) && full.Length1 == |ps| * (9 * n)
    requires forall r, c | 0 <= r < full.Length0 && 0 <= c < full.Length1 :: full[r, c] == 0.0
    ensures PlacedUpTo(full, ps, covFiles, n, 0, 0)
  {
    var size := |ps| * (9 * n);
    forall r, c | 0 <= r < size && 0 <= c < size
      ensures full[r, c] == if Before(r / (9 * n), c / (9 * n), 0, 0) then UpperEntry(ps, covFiles, n, r, c) else 0.0
    {
      DivBound(r, |ps|, 9 * n);
    }
  }

  /** Once every row of blocks is placed, the matrix is UpperBlocks. */
  lemma PlacedAll(full: array2<real>, ps: seq<Pair>, covFiles: map<string, map<string, Matrix>>, n: nat)
    requires CovFilesPresent(ps, covFiles, n) && PlacedUpTo(full, ps, covFiles, n, |ps|, 0)
    ensures ToSeq(full) == UpperBlocks(ps, covFiles, n)
  {
    var b := 9 * n;
    var size := |ps| * b;
    var m := ToSeq(full);
    var u := UpperBlocks(ps, covFiles, n);
    forall r | 0 <= r < size
      ensures m[r] == u[r]
    {
      DivBound(r, |ps|, b);
      forall c | 0 <= c < size
        ensures m[r][c] == u[r][c]
      {
        assert Before(r / b, c / b, |ps|, 0);
      }
    }
  }

  // ----- Symmetrisation -----

  /** full_cov = np.triu(full_cov): entries below the diagonal are zeroed. */
  method Triu(m: array2<real>)
    modifies m
    ensures forall r, c | 0 <= r < m.Length0 && 0 <= c < m.Length1 ::
      m[r, c] == if r <= c then old(m[r, c]) else 0.0
  {
    for r := 0 to m.Length0
      invariant forall r', c | 0 <= r' < m.Length0 && 0 <= c < m.Length1 ::
        m[r', c] == if r' < r && r' > c then 0.0 else old(m[r', c])
    {
      for c := 0 to m.Length1
        invariant forall r', c' | 0 <= r' < m.Length0 && 0 <= c' < m.Length1 ::
          m[r', c'] == if (r' < r || (r' == r && c' < c)) && r' > c' then 0.0 else old(m[r', c'])
      {
        if r > c {
          m[r, c] := 0.0;
        }
      }
    }
  }

  /** full_cov.T - np.diag(full_cov.diagonal()), as a new array. */
  method TransposeMinusDiagonal(m: array2<real>) returns (t: array2<real>)
    requires m.Length0 == m.Length1
    ensures fresh(t) && t.Length0 == m.Length0 && t.Length1 == m.Length1
    ensures forall r, c | 0 <= r < t.Length0 && 0 <= c < t.Length1 ::
      t[r, c] == m[c, r] - (if r == c then m[r, r] else 0.0)
  {
    var size := m.Length0;
    t := new real[size, size]((_, _) => 0.0);
    for r := 0 to size
      invariant forall r', c | 0 <= r' < r && 0 <= c < size ::
        t[r', c] == m[c, r'] - (if r' == c then m[r', r'] else 0.0)
    {
      for c := 0 to size
        invariant forall r', c' | 0 <= r' < size && 0 <= c' < size && (r' < r || (r' == r && c' < c)) ::
          t[r', c'] == m[c', r'] - (if r' == c' then m[r', r'] else 0.0)
      {
        t[r, c] := m[c, r] - (if r == c then m[r, r] else 0.0);
      }
    }
  }

  /** m += t, elementwise. */
  method AddInPlace(m: array2<real>, t: array2<real>)
    requires t != m && t.Length0 == m.Length0 && t.Length1 == m.Length1
    modifies m
    ensures forall r, c | 0 <= r < m.Length0 && 0 <= c < m.Length1 :: m[r, c] == old(m[r, c]) + t[r, c]
  {
    for r := 0 to m.Length0
      invariant forall r', c | 0 <= r' < m.Length0 && 0 <= c < m.Length1 ::
        m[r', c] == if r' < r then old(m[r', c]) + t[r', c] else old(m[r', c])
    {
      for c := 0 to m.Length1
        invariant forall r', c' | 0 <= r' < m.Length0 && 0 <= c' < m.Length1 ::
          m[r', c'] == if r' < r || (r' == r && c' < c) then old(m[r', c']) + t[r', c'] else old(m[r', c'])
      {
        m[r, c] := m[r, c] + t[r, c];
      }
    }
  }

  /** triu(F) + triu(F)^T - diag(F), in place: the result is symmetric, keeps
      F on and above the diagonal (the diagonal is not doubled), and mirrors
      the upper triangle below it, whatever F held there. */
  method Symmetrise(m: array2<real>)
    requires m.Length0 == m.Length1
    modifies m
    ensures forall r, c | 0 <= r < m.Length0 && 0 <= c < m.Length1 :: m[r, c] == m[c, r]
    ensures forall r, c | 0 <= r < m.Length0 && 0 <= c < m.Length1 ::
      m[r, c] == if r <= c then old(m[r, c]) else old(m[c, r])
  {
    Triu(m);
    var t := TransposeMinusDiagonal(m);
    AddInPlace(m, t);
  }

  /** The matrix Symmetrise leaves in place of f. */
  function Symmetrised(f: Matrix, size: nat): (m: Matrix)
    requires IsMatrix(f, size, size)
    ensures IsMatrix(m, size, size)
  {
    seq(size, r requires 0 <= r < size => seq(size, c requires 0 <= c < size => if r <= c then f[r][c] else f[c][r]))
  }

  /** The covariance the compiler attaches to every output container. */
  function FullCovariance(ps: seq<Pair>, covFiles: map<string, map<string, Matrix>>, n: nat): (m: Matrix)
    requires CovFilesPresent(ps, covFiles, n)
    ensures IsMatrix(m, |ps| * (9 * n), |ps| * (9 * n))
  {
    Symmetrised(UpperBlocks(ps, covFiles, n), |ps| * (9 * n))
  }

  /** Entry (r, c) of the compiled covariance is the upper-triangle entry at
      (min(r, c), max(r, c)). */
  lemma FullCovarianceAt(ps: seq<Pair>, covFiles: map<string, map<string, Matrix>>, n: nat, r: nat, c: nat)
    requires CovFilesPresent(ps, covFiles, n) && r < |ps| * (9 * n) && c < |ps| * (9 * n)
    ensures FullCovariance(ps, covFiles, n)[r][c]
         == if r <= c then UpperEntry(ps, covFiles, n, r, c) else UpperEntry(ps, covFiles, n, c, r)
  {
    var size := |ps| * (9 * n);
    var u := UpperBlocks(ps, covFiles, n);
    assert FullCovariance(ps, covFiles, n)[r][c] == if r <= c then u[r][c] else u[c][r];
  }

  /** The covariance part of the compiler's main: build the stored blocks,
      place them and symmetrise. */
  method CompileCovariance(ps: seq<Pair>, covFiles: map<string, map<string, Matrix>>, n: nat)
    returns (fullCov: array2<real>)
    requires CovFilesPresent(ps, covFiles, n)
    ensures fresh(fullCov) && ToSeq(fullCov) == FullCovariance(ps, covFiles, n)
  {
    var covs := BuildPairBlocks(ps, covFiles, n);
    fullCov := PlacePairBlocks(ps, covFiles, covs, n);
    Symmetrise(fullCov);
    var size := |ps| * (9 * n);
    forall r | 0 <= r < size
      ensures ToSeq(fullCov)[r] == FullCovariance(ps, covFiles, n)[r]
    {
    }
  }

  // ----- Properties of the compiled covariance -----

  /** Row or column of entry (pair i, field pair f, bin a) in the covariance,
      the same offset as in the data vector. */
  function FlatIndex(i: nat, f: nat, a: nat, n: nat): nat
  {
    (i * 9 + f) * n + a
  }

  lemma FlatIndexSplit(i: nat, f: nat, a: nat, n: nat, count: nat)
    requires f < 9 && a < n && i < count
    ensures FlatIndex(i, f, a, n) == i * (9 * n) + (f * n + a)
    ensures 0 <= f * n + a < 9 * n && FlatIndex(i, f, a, n) < count * (9 * n)
  {
    BlockInRange(f, a, n, 9);
    BlockInRange(i, f * n + a, 9 * n, count);
  }

  /** The compiled covariance is exactly symmetric. */
  lemma FullCovarianceSymmetric(ps: seq<Pair>, covFiles: map<string, map<string, Matrix>>, n: nat, r: nat, c: nat)
    requires CovFilesPresent(ps, covFiles, n) && r < |ps| * (9 * n) && c < |ps| * (9 * n)
    ensures FullCovariance(ps, covFiles, n)[r][c] == FullCovariance(ps, covFiles, n)[c][r]
  {
    FullCovarianceAt(ps, covFiles, n, r, c);
    FullCovarianceAt(ps, covFiles, n, c, r);
  }

  /** The thinned entry of file (ps[i], ps[j]) for sub-block (f, g), bins (a, b). */
  function ThinnedFileEntry(ps: seq<Pair>, covFiles: map<string, map<string, Matrix>>, n: nat,
                            i: nat, j: nat, f: nat, g: nat, a: nat, b: nat): real
    requires i < |ps| && j < |ps| && f < 9 && g < 9 && a < n && b < n
    requires HasCovFile(covFiles, ps[i], ps[j], n)
  {
    if Abs(a - b) <= ThinOrder then covFiles[CovFileName(ps[i], ps[j])][CovKey(f, g)][a][b] else 0.0
  }

  /** Entry (ra, cb) of the block of entries i <= j, taken on or above the
      diagonal, is the stored pair block's entry, and so is its mirror. */
  lemma FullCovarianceUpperAt(ps: seq<Pair>, covFiles: map<string, map<string, Matrix>>, n: nat,
                              i: nat, j: nat, ra: nat, cb: nat)
    requires CovFilesPresent(ps, covFiles, n)
    requires i <= j < |ps| && ra < 9 * n && cb < 9 * n && (i < j || ra <= cb)
    ensures i * (9 * n) + ra < |ps| * (9 * n) && j * (9 * n) + cb < |ps| * (9 * n)
    ensures FullCovariance(ps, covFiles, n)[i * (9 * n) + ra][j * (9 * n) + cb]
         == PairBlock(covFiles, ps[i], ps[j], n)[ra][cb]
    ensures FullCovariance(ps, covFiles, n)[j * (9 * n) + cb][i * (9 * n) + ra]
         == PairBlock(covFiles, ps[i], ps[j], n)[ra][cb]
  {
    var bs := 9 * n;
    var row, col := i * bs + ra, j * bs + cb;
    if i < j {
      BlockInRange(i, bs - 1, bs, j);
    }
    assert row <= col;
    UpperEntryAt(ps, covFiles, n, i, j, ra, cb, row, col);
    FullCovarianceAt(ps, covFiles, n, row, col);
    FullCovarianceAt(ps, covFiles, n, col, row);
  }

  /** For pair entries i < j, the covariance of data points (i, f, a) and
      (j, g, b) is entry (a, b) of sub-block (f, g) of file (ps[i], ps[j]),
      thinned, in both the upper block and its mirror. */
  lemma FullCovarianceOffDiagonal(ps: seq<Pair>, covFiles: map<string, map<string, Matrix>>, n: nat,
                                  i: nat, j: nat, f: nat, g: nat, a: nat, b: nat)
    requires CovFilesPresent(ps, covFiles, n)
    requires i < j < |ps| && f < 9 && g < 9 && a < n && b < n
    ensures FlatIndex(i, f, a, n) < |ps| * (9 * n) && FlatIndex(j, g, b, n) < |ps| * (9 * n)
    ensures FullCovariance(ps, covFiles, n)[FlatIndex(i, f, a, n)][FlatIndex(j, g, b, n)]
         == ThinnedFileEntry(ps, covFiles, n, i, j, f, g, a, b)
    ensures FullCovariance(ps, covFiles, n)[FlatIndex(j, g, b, n)][FlatIndex(i, f, a, n)]
         == ThinnedFileEntry(ps, covFiles, n, i, j, f, g, a, b)
  {
    FlatIndexSplit(i, f, a, n, |ps|);
    FlatIndexSplit(j, g, b, n, |ps|);
    FullCovarianceUpperAt(ps, covFiles, n, i, j, f * n + a, g * n + b);
    PairBlockAt(covFiles, ps[i], ps[j], n, f, g, a, b);
  }

  /** Entry (data point (i, f, a), data point (i, g, b)) of a diagonal block,
      for (f, a) on or before (g, b): the thinned file entry of (ps[i], ps[i]). */
  lemma DiagonalBlockUpper(ps: seq<Pair>, covFiles: map<string, map<string, Matrix>>, n: nat,
                           i: nat, f: nat, g: nat, a: nat, b: nat)
    requires CovFilesPresent(ps, covFiles, n)
    requires i < |ps| && f < 9 && g < 9 && a < n && b < n && f * n + a <= g * n + b
    ensures FlatIndex(i, f, a, n) < |ps| * (9 * n) && FlatIndex(i, g, b, n) < |ps| * (9 * n)
    ensures FullCovariance(ps, covFiles, n)[FlatIndex(i, f, a, n)][FlatIndex(i, g, b, n)]
         == ThinnedFileEntry(ps, covFiles, n, i, i, f, g, a, b)
    ensures FullCovariance(ps, covFiles, n)[FlatIndex(i, g, b, n)][FlatIndex(i, f, a, n)]
         == ThinnedFileEntry(ps, covFiles, n, i, i, f, g, a, b)
  {
    FlatIndexSplit(i, f, a, n, |ps|);
    FlatIndexSplit(i, g, b, n, |ps|);
    var ra, cb := f * n + a, g * n + b;
    var e := PairBlock(covFiles, ps[i], ps[i], n)[ra][cb];
    FullCovarianceUpperAt(ps, covFiles, n, i, i, ra, cb);
    PairBlockAt(covFiles, ps[i], ps[i], n, f, g, a, b);
    assert e == ThinnedFileEntry(ps, covFiles, n, i, i, f, g, a, b);
  }

  /** Inside a diagonal block (i, i), entries on or above the diagonal come from
      file (ps[i], ps[i]); those below it are the mirrored upper entries, so
      the file's own lower triangle is discarded. */
  lemma FullCovarianceDiagonalBlock(ps: seq<Pair>, covFiles: map<string, map<string, Matrix>>, n: nat,
                                    i: nat, f: nat, g: nat, a: nat, b: nat)
    requires CovFilesPresent(ps, covFiles, n)
    requires i < |ps| && f < 9 && g < 9 && a < n && b < n
    ensures FlatIndex(i, f, a, n) < |ps| * (9 * n) && FlatIndex(i, g, b, n) < |ps| * (9 * n)
    ensures FullCovariance(ps, covFiles, n)[FlatIndex(i, f, a, n)][FlatIndex(i, g, b, n)]
         == if f * n + a <= g * n + b then ThinnedFileEntry(ps, covFiles, n, i, i, f, g, a, b)
            else ThinnedFileEntry(ps, covFiles, n, i, i, g, f, b, a)
  {
    if f * n + a <= g * n + b {
      DiagonalBlockUpper(ps, covFiles, n, i, f, g, a, b);
    } else {
      DiagonalBlockUpper(ps, covFiles, n, i, g, f, b, a);
    }
  }

  /** Thinning with order 3 holds across the whole matrix: every entry whose
      bin indices are more than 3 apart is zero. */
  lemma FullCovarianceBand(ps: seq<Pair>, covFiles: map<string, map<string, Matrix>>, n: nat, r: nat, c: nat)
    requires CovFilesPresent(ps, covFiles, n) && r < |ps| * (9 * n) && c < |ps| * (9 * n)
    requires Abs(r % n - c % n) > ThinOrder
    ensures FullCovariance(ps, covFiles, n)[r][c] == 0.0
  {
    var bs := 9 * n;
    ModMod(r, 9, n);
    ModMod(c, 9, n);
    DivBound(r, |ps|, bs);
    DivBound(c, |ps|, bs);
    FullCovarianceAt(ps, covFiles, n, r, c);
    var lo, hi := if r <= c then r else c, if r <= c then c else r;
    assert FullCovariance(ps, covFiles, n)[r][c] == UpperEntry(ps, covFiles, n, lo, hi);
    if lo / bs <= hi / bs {
      var d := covFiles[CovFileName(ps[lo / bs], ps[hi / bs])];
      ThinningRule(TiledBlock(d, n), n, 9, ThinOrder, lo % bs, hi % bs);
    }
  }
}
