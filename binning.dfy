/** Multipole binning: equal-width bins of delta multipoles from 0 up to
    3 * nside - 1, the last one cut short at the band limit. */
module Binning {
  import opened Arith

  /** numpy's arange for an integer start, stop and positive step. */
  function Arange(start: int, stop: int, step: int): (r: seq<int>)
    requires step >= 1
    ensures |r| == 0 <==> start >= stop
    ensures forall i | 0 <= i < |r| :: r[i] == start + i * step && r[i] < stop
    ensures |r| > 0 ==> r[|r| - 1] + step >= stop
    decreases stop - start
  {
    if start >= stop then [] else [start] + Arange(start + step, stop, step)
  }

  /** arange yields ceil((stop - start) / step) values. */
  lemma ArangeLength(start: int, stop: int, step: int)
    requires step >= 1 && start < stop
    ensures |Arange(start, stop, step)| == (stop - start + step - 1) / step
  {
    var r := Arange(start, stop, step);
    var n := |r|;
    assert r[n - 1] == start + (n - 1) * step;
    assert (n - 1) * step + step == n * step;
    var x := stop - start + step - 1;
    assert n * step <= x < n * step + step;
    DivModUnique(x, step, n, x - n * step);
  }

  datatype Bins = Bins(low: seq<int>, high: seq<int>, center: seq<real>)

  /** The bin edges and centres for a map resolution nside and bin width delta. */
  function CreateBinning(nside: int, delta: int): (bins: Bins)
    requires nside >= 1 && delta >= 1
    ensures |bins.low| >= 1 && |bins.high| == |bins.low| && |bins.center| == |bins.low|
  {
    var low := Arange(0, 3 * nside, delta);
    var high0 := seq(|low|, i requires 0 <= i < |low| => low[i] + delta - 1);
    var high := high0[|low| - 1 := 3 * nside - 1];
    var center := seq(|low|, i requires 0 <= i < |low| => (low[i] + high[i]) as real / 2.0);
    Bins(low, high, center)
  }

  /** The lows are 0, delta, 2 * delta, ..., all below 3 * nside, and there
      are ceil(3 * nside / delta) of them. */
  lemma BinLows(nside: int, delta: int)
    requires nside >= 1 && delta >= 1
    ensures var b := CreateBinning(nside, delta);
            |b.low| == (3 * nside + delta - 1) / delta
            && forall i | 0 <= i < |b.low| :: b.low[i] == i * delta && b.low[i] < 3 * nside
  {
    ArangeLength(0, 3 * nside, delta);
  }

  /** Every bin but the last spans delta multipoles, and each bin starts
      right after the previous one ends. */
  lemma BinsContiguous(nside: int, delta: int, i: nat)
    requires nside >= 1 && delta >= 1
    requires i + 1 < |CreateBinning(nside, delta).low|
    ensures var b := CreateBinning(nside, delta);
            b.high[i] == b.low[i] + delta - 1 && b.high[i] + 1 == b.low[i + 1]
  {
    var b := CreateBinning(nside, delta);
    assert b.low[i + 1] == (i + 1) * delta == i * delta + delta;
  }

  /** The last bin ends at 3 * nside - 1 and holds between 1 and delta
      multipoles: it is cut short, never widened. */
  lemma LastBin(nside: int, delta: int)
    requires nside >= 1 && delta >= 1
    ensures var b := CreateBinning(nside, delta);
            var last := |b.low| - 1;
            b.high[last] == 3 * nside - 1
            && b.low[last] <= b.high[last]
            && 1 <= b.high[last] - b.low[last] + 1 <= delta
  {
  }

  /** Each centre is the midpoint of its bin, so lies within it. */
  lemma BinCenters(nside: int, delta: int, i: nat)
    requires nside >= 1 && delta >= 1
    requires i < |CreateBinning(nside, delta).low|
    ensures var b := CreateBinning(nside, delta);
            b.center[i] - b.low[i] as real == b.high[i] as real - b.center[i]
            && b.low[i] as real <= b.center[i] <= b.high[i] as real
  {
    var b := CreateBinning(nside, delta);
    if i == |b.low| - 1 {
      LastBin(nside, delta);
    }
  }

  /** The bins partition 0 .. 3 * nside - 1: multipole ell lies in bin
      ell / delta and in no other. */
  lemma BinsPartition(nside: int, delta: int, ell: int, j: nat)
    requires nside >= 1 && delta >= 1 && 0 <= ell < 3 * nside
    ensures var b := CreateBinning(nside, delta);
            var i := ell / delta;
            0 <= i < |b.low| && b.low[i] <= ell <= b.high[i]
            && (j < |b.low| && b.low[j] <= ell <= b.high[j] ==> j == i)
  {
    var b := CreateBinning(nside, delta);
    var n := |b.low|;
    var i := ell / delta;
    BinOfMultipole(nside, delta, ell);
    if j < n && b.low[j] <= ell <= b.high[j] {
      BinUnique(nside, delta, ell, j, i);
    }
  }

  lemma BinOfMultipole(nside: int, delta: int, ell: int)
    requires nside >= 1 && delta >= 1 && 0 <= ell < 3 * nside
    ensures var b := CreateBinning(nside, delta);
            var i := ell / delta;
            0 <= i < |b.low| && b.low[i] <= ell <= b.high[i]
  {
    var n := |CreateBinning(nside, delta).low|;
    var i := ell / delta;
    LowsCover(nside, delta);
    DivBound(ell, n, delta);
    DivFloor(ell, delta);
    BinEdges(nside, delta, i);
  }

  /** The edges of bin i as closed forms. */
  lemma BinEdges(nside: int, delta: int, i: nat)
    requires nside >= 1 && delta >= 1 && i < |CreateBinning(nside, delta).low|
    ensures var b := CreateBinning(nside, delta);
            b.low[i] == i * delta
            && b.high[i] == if i < |b.low| - 1 then i * delta + delta - 1 else 3 * nside - 1
  {
  }

  /** The n bins of width delta reach the band limit: 3 * nside <= n * delta. */
  lemma LowsCover(nside: int, delta: int)
    requires nside >= 1 && delta >= 1
    ensures 3 * nside <= |CreateBinning(nside, delta).low| * delta
  {
    var low := Arange(0, 3 * nside, delta);
    var n := |low|;
    assert low[n - 1] == (n - 1) * delta && low[n - 1] + delta >= 3 * nside;
    assert (n - 1) * delta + delta == n * delta;
  }

  lemma BinUnique(nside: int, delta: int, ell: int, j: nat, i: nat)
    requires nside >= 1 && delta >= 1
    requires var b := CreateBinning(nside, delta);
             i < |b.low| && j < |b.low| && b.low[i] <= ell <= b.high[i] && b.low[j] <= ell <= b.high[j]
    ensures i == j
  {
    if j < i {
      BinsOrdered(nside, delta, j, i);
    } else if i < j {
      BinsOrdered(nside, delta, i, j);
    }
  }

  /** A later bin starts after an earlier one ends. */
  lemma BinsOrdered(nside: int, delta: int, j: nat, i: nat)
    requires nside >= 1 && delta >= 1
    requires j < i < |CreateBinning(nside, delta).low|
    ensures CreateBinning(nside, delta).high[j] < CreateBinning(nside, delta).low[i]
  {
    var b := CreateBinning(nside, delta);
    BinsContiguous(nside, delta, j);
    assert b.low[j + 1] == (j + 1) * delta && b.low[i] == i * delta;
    if j + 1 < i {
      MulAtLeast(i - j - 1, delta);
      assert i * delta - (j + 1) * delta == (i - j - 1) * delta;
    }
  }
}
