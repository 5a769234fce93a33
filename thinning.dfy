/** Banded indicator matrices and the thinning of a per-pair covariance block
    by bin-index separation. */
module Thinning {
  import opened Arith
  import opened Matrices

  datatype Option<T> = None | Some(value: T)

  /** The integers lo, lo + 1, ..., hi - 1 (Python's range(lo, hi)). */
  function Range(lo: int, hi: int): (r: seq<int>)
    ensures |r| == if lo < hi then hi - lo else 0
    ensures forall i | 0 <= i < |r| :: r[i] == lo + i
    decreases hi - lo
  {
    if lo >= hi then [] else [lo] + Range(lo + 1, hi)
  }

  /** The number of times x occurs in s. */
  function Occurrences(s: seq<int>, x: int): nat
  {
    if s == [] then 0 else (if s[0] == x then 1 else 0) + Occurrences(s[1..], x)
  }

  /** Every integer of [lo, hi) occurs in Range(lo, hi) exactly once, and nothing else does. */
  lemma {:induction false} RangeCount(lo: int, hi: int, x: int)
    ensures Occurrences(Range(lo, hi), x) == if lo <= x < hi then 1 else 0
    decreases hi - lo
  {
    if lo < hi {
      RangeCount(lo + 1, hi, x);
      assert Range(lo, hi)[1..] == Range(lo + 1, hi);
    }
  }

  /** The sum of the shifted identities np.eye(size, k=k) over k in ks. */
  function MultiEye(size: nat, ks: seq<int>): (m: Matrix)
    ensures IsMatrix(m, size, size)
  {
    if ks == [] then Zeros(size, size)
    else Add(Eye(size, ks[0]), MultiEye(size, ks[1..]), size, size)
  }

  /** Entry (r, c) of MultiEye counts the offsets k in ks with c - r == k. */
  lemma {:induction false} MultiEyeCounts(size: nat, ks: seq<int>, r: nat, c: nat)
    requires r < size && c < size
    ensures MultiEye(size, ks)[r][c] == Occurrences(ks, c - r) as real
  {
    if ks != [] {
      MultiEyeCounts(size, ks[1..], r, c);
    }
  }

  /** multi_eye over the offsets -order..order, as thin_covariance builds it. */
  function Band(size: nat, order: nat): (m: Matrix)
    ensures IsMatrix(m, size, size)
  {
    MultiEye(size, Range(-(order as int), order + 1))
  }

  /** With the offsets -order..order, MultiEye is the band indicator of half-width order. */
  lemma MultiEyeBand(size: nat, order: nat, r: nat, c: nat)
    requires r < size && c < size
    ensures Band(size, order)[r][c] == if Abs(r - c) <= order then 1.0 else 0.0
  {
    BandOffsetCount(order, r, c);
    MultiEyeCounts(size, Range(-(order as int), order + 1), r, c);
  }

  /** The offset c - r occurs once among -order..order when |r - c| <= order, and not at all otherwise. */
  lemma BandOffsetCount(order: nat, r: nat, c: nat)
    ensures Occurrences(Range(-(order as int), order + 1), c - r) as real == if Abs(r - c) <= order then 1.0 else 0.0
  {
    RangeCount(-(order as int), order + 1, c - r);
  }

  /** thin_covariance: without an order the block is returned as it is; with an
      order, it is multiplied elementwise by the band indicator of that
      half-width, tiled over the nFields x nFields field-pair sub-blocks. */
  function ThinCovariance(cov: Matrix, nBins: nat, nFields: nat, order: Option<int>): (t: Matrix)
    requires order.Some? ==> order.value >= 0 && IsMatrix(cov, nFields * nBins, nFields * nBins)
    ensures order.None? ==> t == cov
    ensures order.Some? ==> IsMatrix(t, nFields * nBins, nFields * nBins)
  {
    if order.None? then cov
    else
      var eye := Band(nBins, order.value);
      var tiled := Tile(eye, nBins, nFields);
      Hadamard(tiled, cov, nFields * nBins, nFields * nBins)
  }

  /** Thinning keeps entry (a, b) iff the bin indices a mod nBins and b mod nBins
      are at most order apart, and zeroes it otherwise. */
  lemma ThinningRule(cov: Matrix, nBins: nat, nFields: nat, order: nat, a: nat, b: nat)
    requires IsMatrix(cov, nFields * nBins, nFields * nBins)
    requires a < nFields * nBins && b < nFields * nBins
    ensures ThinCovariance(cov, nBins, nFields, Some(order))[a][b]
         == if Abs(a % nBins - b % nBins) <= order then cov[a][b] else 0.0
  {
    var eye := Band(nBins, order);
    PositiveFactor(a, nFields, nBins);
    ThinnedEntry(cov, nBins, nFields, order, a, b);
    MultiEyeBand(nBins, order, a % nBins, b % nBins);
    if Abs(a % nBins - b % nBins) <= order {
      assert eye[a % nBins][b % nBins] == 1.0;
    } else {
      assert eye[a % nBins][b % nBins] == 0.0;
    }
  }

  /** A thinned entry is the covariance entry times the band indicator at the bin indices. */
  lemma ThinnedEntry(cov: Matrix, nBins: nat, nFields: nat, order: nat, a: nat, b: nat)
    requires IsMatrix(cov, nFields * nBins, nFields * nBins)
    requires nBins > 0 && a < nFields * nBins && b < nFields * nBins
    ensures ThinCovariance(cov, nBins, nFields, Some(order))[a][b]
         == Band(nBins, order)[a % nBins][b % nBins] * cov[a][b]
  {
    var eye := Band(nBins, order);
    var tiled := Tile(eye, nBins, nFields);
    assert ThinCovariance(cov, nBins, nFields, Some(order)) == Hadamard(tiled, cov, nFields * nBins, nFields * nBins);
    HadamardAt(tiled, cov, nFields * nBins, nFields * nBins, a, b);
    TileAt(eye, nBins, nFields, a, b);
  }

  /** The same band is applied in every field-pair sub-block: entry (a, b) of
      sub-block (p, q), at row p * nBins + a and column q * nBins + b, is kept
      iff |a - b| <= order. */
  lemma ThinningPerSubBlock(cov: Matrix, nBins: nat, nFields: nat, order: nat,
                            p: nat, q: nat, a: nat, b: nat, row: nat, col: nat)
    requires IsMatrix(cov, nFields * nBins, nFields * nBins)
    requires p < nFields && q < nFields && a < nBins && b < nBins
    requires row == p * nBins + a && col == q * nBins + b
    ensures row < nFields * nBins && col < nFields * nBins
    ensures ThinCovariance(cov, nBins, nFields, Some(order))[row][col]
         == if Abs(a - b) <= order then cov[row][col] else 0.0
  {
    BlockInRange(p, a, nBins, nFields);
    BlockInRange(q, b, nBins, nFields);
    BlockIndex(p, a, nBins);
    BlockIndex(q, b, nBins);
    ThinningRule(cov, nBins, nFields, order, row, col);
  }
}
