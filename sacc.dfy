/** The output side of the sacc compilation: the container of tracers, data
    points and covariance, and the per-realisation loop that fills one
    container per output file. */
module SaccContainer {
  import opened Arith
  import opened Matrices
  import opened SaccLabels
  import opened CovarianceAssembly

  /** --data compiles the measured spectra once; --sims once per simulation. */
  datatype Mode = Data | Sims(covNumSims: nat)

  function NumSims(mode: Mode): nat
  {
    match mode
    case Data => 1
    case Sims(k) => k
  }

  /** Directory, relative to the output directory, of the spectrum files. */
  function ClDir(mode: Mode): string
  {
    if mode.Data? then "cells" else "cells_sims"
  }

  function CellFileName(mode: Mode, a: Pair, suffix: string): string
  {
    ClDir(mode) + "/decoupled_cross_pcls_" + a.0 + "_x_" + a.1 + suffix + ".npz"
  }

  function OutputFileName(suffix: string): string
  {
    "saccs/cl_and_cov_sacc" + suffix + ".fits"
  }

  datatype Tracer = Tracer(tracerType: string, name: string, quantity: string, spin: nat,
                           nu: seq<int>, ell: seq<real>, beam: seq<real>, bandpass: seq<real>)

  /** One binned data point; window is the point's entry of the window passed with it. */
  datatype DataPoint = DataPoint(dataType: string, tracer1: string, tracer2: string,
                                 ell: real, value: real, window: real)

  /** What save_fits writes: the container's tracers, data points and covariance. */
  datatype SaccRecord = SaccRecord(tracers: seq<Tracer>, points: seq<DataPoint>, covariance: Matrix)

  function Ones(k: nat): (s: seq<real>)
    ensures |s| == k
  {
    seq(k, _ => 1.0)
  }

  /** The points add_ell_cl appends: one per multipole, in order. */
  function EllClPoints(dataType: string, tracer1: string, tracer2: string,
                       ell: seq<real>, x: seq<real>, window: seq<real>): (pts: seq<DataPoint>)
    requires |x| == |ell| && |window| == |ell|
    ensures |pts| == |ell|
  {
    seq(|ell|, k requires 0 <= k < |ell| => DataPoint(dataType, tracer1, tracer2, ell[k], x[k], window[k]))
  }

  /** The container the compiler fills: tracers and data points are appended,
      the covariance attached once. */
  class Sacc {
    var tracers: seq<Tracer>
    var points: seq<DataPoint>
    var covariance: Matrix

    constructor ()
      ensures tracers == [] && points == [] && covariance == []
    {
      tracers, points, covariance := [], [], [];
    }

    function Record(): SaccRecord
      reads this
    {
      SaccRecord(tracers, points, covariance)
    }

    method AddTracer(t: Tracer)
      modifies this
      ensures tracers == old(tracers) + [t]
      ensures points == old(points) && covariance == old(covariance)
    {
      tracers := tracers + [t];
    }

    method AddEllCl(dataType: string, tracer1: string, tracer2: string,
                    ell: seq<real>, x: seq<real>, window: seq<real>)
      requires |x| == |ell| && |window| == |ell|
      modifies this
      ensures points == old(points) + EllClPoints(dataType, tracer1, tracer2, ell, x, window)
      ensures tracers == old(tracers) && covariance == old(covariance)
    {
      points := points + EllClPoints(dataType, tracer1, tracer2, ell, x, window);
    }

    method AddCovariance(cov: Matrix)
      modifies this
      ensures covariance == cov
      ensures tracers == old(tracers) && points == old(points)
    {
      covariance := cov;
    }
  }

  // ----- Tracers -----

  const Spins: seq<nat> := [0, 2]
  const Quantities: seq<string> := ["cmb_temperature", "cmb_polarization"]

  function MapSetTracer(ms: string, t: nat, lb: seq<real>, nu: int): Tracer
    requires t < 2
  {
    Tracer("NuMap", TracerName(ms, Spins[t]), Quantities[t], Spins[t], [nu], lb, Ones(|lb|), [1.0])
  }

  predicate HasFreqTags(mapSets: seq<string>, freqTag: map<string, int>)
  {
    forall k | 0 <= k < |mapSets| :: mapSets[k] in freqTag
  }

  /** The tracers registered for the map sets: spin 0, then spin 2, per map set. */
  function Tracers(mapSets: seq<string>, lb: seq<real>, freqTag: map<string, int>): seq<Tracer>
    requires HasFreqTags(mapSets, freqTag)
  {
    if mapSets == [] then []
    else
      var ms := mapSets[|mapSets| - 1];
      Tracers(mapSets[..|mapSets| - 1], lb, freqTag)
        + [MapSetTracer(ms, 0, lb, freqTag[ms]), MapSetTracer(ms, 1, lb, freqTag[ms])]
  }

  /** Exactly two tracers per map set: ms_s0 (spin 0) at 2k and ms_s2 (spin 2) at 2k + 1. */
  lemma {:induction false} TracersLayout(mapSets: seq<string>, lb: seq<real>, freqTag: map<string, int>, k: nat)
    requires HasFreqTags(mapSets, freqTag) && k < |mapSets|
    ensures |Tracers(mapSets, lb, freqTag)| == 2 * |mapSets|
    ensures Tracers(mapSets, lb, freqTag)[2 * k].name == mapSets[k] + "_s0"
    ensures Tracers(mapSets, lb, freqTag)[2 * k].spin == 0
    ensures Tracers(mapSets, lb, freqTag)[2 * k + 1].name == mapSets[k] + "_s2"
    ensures Tracers(mapSets, lb, freqTag)[2 * k + 1].spin == 2
    ensures Tracers(mapSets, lb, freqTag)[2 * k].nu == Tracers(mapSets, lb, freqTag)[2 * k + 1].nu == [freqTag[mapSets[k]]]
  {
    var init := mapSets[..|mapSets| - 1];
    if k < |mapSets| - 1 {
      TracersLayout(init, lb, freqTag, k);
    } else if init != [] {
      TracersLayout(init, lb, freqTag, 0);
    }
    assert TracerName(mapSets[k], 0) == mapSets[k] + "_s0";
    assert TracerName(mapSets[k], 2) == mapSets[k] + "_s2";
  }

  method AddMapSetTracers(s: Sacc, mapSets: seq<string>, lb: seq<real>, freqTag: map<string, int>)
    requires HasFreqTags(mapSets, freqTag)
    modifies s
    ensures s.tracers == old(s.tracers) + Tracers(mapSets, lb, freqTag)
    ensures s.points == old(s.points) && s.covariance == old(s.covariance)
  {
    for k := 0 to |mapSets|
      invariant s.tracers == old(s.tracers) + Tracers(mapSets[..k], lb, freqTag)
      invariant s.points == old(s.points) && s.covariance == old(s.covariance)
    {
      var ms := mapSets[k];
      for t := 0 to 2
        invariant s.tracers == old(s.tracers) + Tracers(mapSets[..k], lb, freqTag)
                               + seq(t, t' requires 0 <= t' < t => MapSetTracer(ms, t', lb, freqTag[ms]))
        invariant s.points == old(s.points) && s.covariance == old(s.covariance)
      {
        s.AddTracer(Tracer("NuMap", TracerName(ms, Spins[t]), Quantities[t], Spins[t],
                           [freqTag[ms]], lb, Ones(|lb|), [1.0]));
      }
      assert mapSets[..k + 1][..k] == mapSets[..k];
    }
    assert mapSets[..|mapSets|] == mapSets;
  }

  // ----- Data points -----

  /** A loaded spectrum file: all nine field pairs, each of length nb. */
  predicate CellsShaped(cells: map<string, seq<real>>, nb: nat)
  {
    forall f | 0 <= f < 9 :: FieldPairs()[f] in cells && |cells[FieldPairs()[f]]| == nb
  }

  predicate CellFilesPresent(mode: Mode, suffix: string, ps: seq<Pair>,
                             cellFiles: map<string, map<string, seq<real>>>, nb: nat)
  {
    forall i | 0 <= i < |ps| ::
      CellFileName(mode, ps[i], suffix) in cellFiles && CellsShaped(cellFiles[CellFileName(mode, ps[i], suffix)], nb)
  }

  /** The data type of the f-th field pair. */
  function FieldPairType(f: nat): (dt: string)
    requires f < 9
    ensures |dt| == 5 && dt[..3] == "cl_"
  {
    DataTypesOfFieldPairs();
    DataType(FieldPairs()[f])
  }

  /** The add_ell_cl call for field pair f of entry (ms1, ms2). */
  function FieldPairPoints(pair: Pair, cells: map<string, seq<real>>, lb: seq<real>, f: nat): (pts: seq<DataPoint>)
    requires CellsShaped(cells, |lb|) && f < 9
    ensures |pts| == |lb|
  {
    var fp := FieldPairs()[f];
    EllClPoints(FieldPairType(f), TracerName(pair.0, Spin(fp[0])), TracerName(pair.1, Spin(fp[1])),
                lb, cells[fp], Ones(|lb|))
  }

  /** Points of the first count field pairs of one entry. */
  function PairPoints(pair: Pair, cells: map<string, seq<real>>, lb: seq<real>, count: nat): seq<DataPoint>
    requires CellsShaped(cells, |lb|) && count <= 9
  {
    if count == 0 then []
    else PairPoints(pair, cells, lb, count - 1) + FieldPairPoints(pair, cells, lb, count - 1)
  }

  /** The data vector of one realisation: entries in order, field pairs in
      order within an entry, bins in order within a field pair. */
  function DataPoints(mode: Mode, suffix: string, ps: seq<Pair>,
                      cellFiles: map<string, map<string, seq<real>>>, lb: seq<real>): seq<DataPoint>
    requires CellFilesPresent(mode, suffix, ps, cellFiles, |lb|)
  {
    if ps == [] then []
    else
      var last := ps[|ps| - 1];
      assert CellFilesPresent(mode, suffix, ps[..|ps| - 1], cellFiles, |lb|);
      DataPoints(mode, suffix, ps[..|ps| - 1], cellFiles, lb)
        + PairPoints(last, cellFiles[CellFileName(mode, last, suffix)], lb, 9)
  }

  lemma {:induction false} PairPointsAt(pair: Pair, cells: map<string, seq<real>>, lb: seq<real>,
                                        count: nat, f: nat, b: nat)
    requires CellsShaped(cells, |lb|) && f < count <= 9 && b < |lb|
    ensures |PairPoints(pair, cells, lb, count)| == count * |lb|
    ensures f * |lb| + b < count * |lb|
    ensures PairPoints(pair, cells, lb, count)[f * |lb| + b] == FieldPairPoints(pair, cells, lb, f)[b]
  {
    var nb := |lb|;
    var pre := PairPoints(pair, cells, lb, count - 1);
    var last := FieldPairPoints(pair, cells, lb, count - 1);
    PairPointsLength(pair, cells, lb, count);
    PairPointsLength(pair, cells, lb, count - 1);
    BlockInRange(f, b, nb, count);
    if f < count - 1 {
      BlockInRange(f, b, nb, count - 1);
      PairPointsAt(pair, cells, lb, count - 1, f, b);
      assert (pre + last)[f * nb + b] == pre[f * nb + b];
    } else {
      ConcatAt(pre, last, b, f * nb + b);
    }
  }

  lemma {:induction false} PairPointsLength(pair: Pair, cells: map<string, seq<real>>, lb: seq<real>, count: nat)
    requires CellsShaped(cells, |lb|) && count <= 9
    ensures |PairPoints(pair, cells, lb, count)| == count * |lb|
  {
    if count > 0 {
      PairPointsLength(pair, cells, lb, count - 1);
      MulSucc(count, |lb|);
    }
  }

  /** The data vector has one point per covariance row: |ps| * 9 * nb. */
  lemma {:induction false} DataPointsLength(mode: Mode, suffix: string, ps: seq<Pair>,
                                            cellFiles: map<string, map<string, seq<real>>>, lb: seq<real>)
    requires CellFilesPresent(mode, suffix, ps, cellFiles, |lb|)
    ensures |DataPoints(mode, suffix, ps, cellFiles, lb)| == |ps| * (9 * |lb|)
  {
    if ps != [] {
      var init := ps[..|ps| - 1];
      CellFilesPresentPrefix(mode, suffix, ps, cellFiles, |lb|, |ps| - 1);
      DataPointsLength(mode, suffix, init, cellFiles, lb);
      PairPointsLength(ps[|ps| - 1], cellFiles[CellFileName(mode, ps[|ps| - 1], suffix)], lb, 9);
      MulSucc(|ps|, 9 * |lb|);
    }
  }

  /** Point (entry i, field pair f, bin b) sits at flat offset (i * 9 + f) * nb + b,
      the covariance's row for it, and carries the field pair's data type, the
      tracers of its map sets and spins, the bin's multipole and the spectrum value. */
  lemma DataPointAt(mode: Mode, suffix: string, ps: seq<Pair>,
                    cellFiles: map<string, map<string, seq<real>>>, lb: seq<real>,
                    i: nat, f: nat, b: nat)
    requires CellFilesPresent(mode, suffix, ps, cellFiles, |lb|)
    requires i < |ps| && f < 9 && b < |lb|
    ensures |DataPoints(mode, suffix, ps, cellFiles, lb)| == |ps| * (9 * |lb|)
    ensures FlatIndex(i, f, b, |lb|) < |ps| * (9 * |lb|)
    ensures DataPoints(mode, suffix, ps, cellFiles, lb)[FlatIndex(i, f, b, |lb|)]
         == DataPoint(FieldPairType(f),
                      TracerName(ps[i].0, Spin(FieldPairs()[f][0])),
                      TracerName(ps[i].1, Spin(FieldPairs()[f][1])),
                      lb[b], cellFiles[CellFileName(mode, ps[i], suffix)][FieldPairs()[f]][b], 1.0)
  {
    DataPointInPair(mode, suffix, ps, cellFiles, lb, i, f, b);
  }

  /** Point (i, f, b) of the data vector is point b of field pair f of entry i. */
  lemma {:induction false} DataPointInPair(mode: Mode, suffix: string, ps: seq<Pair>,
                                           cellFiles: map<string, map<string, seq<real>>>, lb: seq<real>,
                                           i: nat, f: nat, b: nat)
    requires CellFilesPresent(mode, suffix, ps, cellFiles, |lb|)
    requires i < |ps| && f < 9 && b < |lb|
    ensures |DataPoints(mode, suffix, ps, cellFiles, lb)| == |ps| * (9 * |lb|)
    ensures FlatIndex(i, f, b, |lb|) < |ps| * (9 * |lb|)
    ensures DataPoints(mode, suffix, ps, cellFiles, lb)[FlatIndex(i, f, b, |lb|)]
         == FieldPairPoints(ps[i], cellFiles[CellFileName(mode, ps[i], suffix)], lb, f)[b]
    decreases |ps|
  {
    var nb := |lb|;
    FlatIndexSplit(i, f, b, nb, |ps|);
    DataPointsSplit(mode, suffix, ps, cellFiles, lb);
    var init := ps[..|ps| - 1];
    var last := ps[|ps| - 1];
    var pre := DataPoints(mode, suffix, init, cellFiles, lb);
    var tail := PairPoints(last, cellFiles[CellFileName(mode, last, suffix)], lb, 9);
    if i < |ps| - 1 {
      FlatIndexSplit(i, f, b, nb, |ps| - 1);
      DataPointInPair(mode, suffix, init, cellFiles, lb, i, f, b);
      assert init[i] == ps[i];
      assert (pre + tail)[FlatIndex(i, f, b, nb)] == pre[FlatIndex(i, f, b, nb)];
    } else {
      PairPointsAt(last, cellFiles[CellFileName(mode, last, suffix)], lb, 9, f, b);
      ConcatAt(pre, tail, f * nb + b, FlatIndex(i, f, b, nb));
      assert ps[i] == last;
    }
  }

  /** The data vector of ps is that of all but the last entry, followed by
      the last entry's points. */
  lemma DataPointsSplit(mode: Mode, suffix: string, ps: seq<Pair>,
                        cellFiles: map<string, map<string, seq<real>>>, lb: seq<real>)
    requires CellFilesPresent(mode, suffix, ps, cellFiles, |lb|) && ps != []
    ensures CellFilesPresent(mode, suffix, ps[..|ps| - 1], cellFiles, |lb|)
    ensures DataPoints(mode, suffix, ps, cellFiles, lb)
         == DataPoints(mode, suffix, ps[..|ps| - 1], cellFiles, lb)
            + PairPoints(ps[|ps| - 1], cellFiles[CellFileName(mode, ps[|ps| - 1], suffix)], lb, 9)
    ensures |DataPoints(mode, suffix, ps[..|ps| - 1], cellFiles, lb)| == (|ps| - 1) * (9 * |lb|)
    ensures |DataPoints(mode, suffix, ps, cellFiles, lb)| == |ps| * (9 * |lb|)
  {
    var init := ps[..|ps| - 1];
    CellFilesPresentPrefix(mode, suffix, ps, cellFiles, |lb|, |ps| - 1);
    DataPointsLength(mode, suffix, init, cellFiles, lb);
    DataPointsLength(mode, suffix, ps, cellFiles, lb);
  }

  /** Some registered tracer has this name and spin. */
  predicate Registered(name: string, spin: nat, tracers: seq<Tracer>)
  {
    exists k | 0 <= k < |tracers| :: tracers[k].name == name && tracers[k].spin == spin
  }

  lemma MapSetTracerRegistered(mapSets: seq<string>, lb: seq<real>, freqTag: map<string, int>, ms: string, c: char)
    requires HasFreqTags(mapSets, freqTag) && ms in mapSets
    ensures Registered(TracerName(ms, Spin(c)), Spin(c), Tracers(mapSets, lb, freqTag))
  {
    var j :| 0 <= j < |mapSets| && mapSets[j] == ms;
    TracersLayout(mapSets, lb, freqTag, j);
    TracerNameOfField(ms, c);
    var tr := Tracers(mapSets, lb, freqTag);
    if Spin(c) == 0 {
      assert tr[2 * j].name == TracerName(ms, Spin(c)) && tr[2 * j].spin == Spin(c);
    } else {
      assert tr[2 * j + 1].name == TracerName(ms, Spin(c)) && tr[2 * j + 1].spin == Spin(c);
    }
  }

  /** Every data point refers to tracers that were registered, with the spins
      of its field pair, when the entry's map sets are among the map sets. */
  lemma DataPointTracersRegistered(mode: Mode, suffix: string, mapSets: seq<string>, freqTag: map<string, int>,
                                   ps: seq<Pair>, cellFiles: map<string, map<string, seq<real>>>, lb: seq<real>,
                                   i: nat, f: nat, b: nat)
    requires HasFreqTags(mapSets, freqTag) && CellFilesPresent(mode, suffix, ps, cellFiles, |lb|)
    requires i < |ps| && f < 9 && b < |lb|
    requires ps[i].0 in mapSets && ps[i].1 in mapSets
    ensures |DataPoints(mode, suffix, ps, cellFiles, lb)| == |ps| * (9 * |lb|)
    ensures FlatIndex(i, f, b, |lb|) < |ps| * (9 * |lb|)
    ensures var pt := DataPoints(mode, suffix, ps, cellFiles, lb)[FlatIndex(i, f, b, |lb|)];
            Registered(pt.tracer1, Spin(FieldPairs()[f][0]), Tracers(mapSets, lb, freqTag))
            && Registered(pt.tracer2, Spin(FieldPairs()[f][1]), Tracers(mapSets, lb, freqTag))
  {
    DataPointAt(mode, suffix, ps, cellFiles, lb, i, f, b);
    MapSetTracerRegistered(mapSets, lb, freqTag, ps[i].0, FieldPairs()[f][0]);
    MapSetTracerRegistered(mapSets, lb, freqTag, ps[i].1, FieldPairs()[f][1]);
  }

  lemma AppendAssoc<T>(x: seq<T>, y: seq<T>, z: seq<T>)
    ensures (x + y) + z == x + (y + z)
  {
  }

  lemma ConcatAt<T>(x: seq<T>, y: seq<T>, k: nat, idx: nat)
    requires k < |y| && idx == |x| + k
    ensures (x + y)[idx] == y[k]
  {
  }

  lemma CellFilesPresentPrefix(mode: Mode, suffix: string, ps: seq<Pair>,
                               cellFiles: map<string, map<string, seq<real>>>, nb: nat, k: nat)
    requires CellFilesPresent(mode, suffix, ps, cellFiles, nb) && k <= |ps|
    ensures CellFilesPresent(mode, suffix, ps[..k], cellFiles, nb)
  {
    forall i | 0 <= i < k
      ensures CellFileName(mode, ps[..k][i], suffix) in cellFiles
      ensures CellsShaped(cellFiles[CellFileName(mode, ps[..k][i], suffix)], nb)
    {
      assert ps[..k][i] == ps[i];
    }
  }

  /** The data-point loop of one realisation: add_ell_cl for every entry and field pair. */
  method AddDataPoints(s: Sacc, mode: Mode, suffix: string, ps: seq<Pair>,
                       cellFiles: map<string, map<string, seq<real>>>, lb: seq<real>)
    requires CellFilesPresent(mode, suffix, ps, cellFiles, |lb|)
    modifies s
    ensures s.points == old(s.points) + DataPoints(mode, suffix, ps, cellFiles, lb)
    ensures s.tracers == old(s.tracers) && s.covariance == old(s.covariance)
  {
    for i := 0 to |ps|
      invariant s.points == old(s.points) + DataPoints(mode, suffix, ps[..i], cellFiles, lb)
      invariant s.tracers == old(s.tracers) && s.covariance == old(s.covariance)
    {
      DataPointsSnoc(mode, suffix, ps, cellFiles, lb, i);
      var cells := cellFiles[CellFileName(mode, ps[i], suffix)];
      AddPairPoints(s, ps[i], cells, lb);
      AppendAssoc(old(s.points), DataPoints(mode, suffix, ps[..i], cellFiles, lb), PairPoints(ps[i], cells, lb, 9));
    }
    assert ps[..|ps|] == ps;
  }

  /** Extending a prefix of the entries by one appends that entry's points. */
  lemma DataPointsSnoc(mode: Mode, suffix: string, ps: seq<Pair>,
                       cellFiles: map<string, map<string, seq<real>>>, lb: seq<real>, i: nat)
    requires CellFilesPresent(mode, suffix, ps, cellFiles, |lb|) && i < |ps|
    ensures CellFilesPresent(mode, suffix, ps[..i], cellFiles, |lb|)
    ensures CellFilesPresent(mode, suffix, ps[..i + 1], cellFiles, |lb|)
    ensures CellsShaped(cellFiles[CellFileName(mode, ps[i], suffix)], |lb|)
    ensures DataPoints(mode, suffix, ps[..i + 1], cellFiles, lb)
         == DataPoints(mode, suffix, ps[..i], cellFiles, lb)
            + PairPoints(ps[i], cellFiles[CellFileName(mode, ps[i], suffix)], lb, 9)
  {
    CellFilesPresentPrefix(mode, suffix, ps, cellFiles, |lb|, i);
    CellFilesPresentPrefix(mode, suffix, ps, cellFiles, |lb|, i + 1);
    assert ps[..i + 1][..i] == ps[..i];
  }

  /** The nine add_ell_cl calls of one entry. */
  method AddPairPoints(s: Sacc, pair: Pair, cells: map<string, seq<real>>, lb: seq<real>)
    requires CellsShaped(cells, |lb|)
    modifies s
    ensures s.points == old(s.points) + PairPoints(pair, cells, lb, 9)
    ensures s.tracers == old(s.tracers) && s.covariance == old(s.covariance)
  {
    for f := 0 to 9
      invariant s.points == old(s.points) + PairPoints(pair, cells, lb, f)
      invariant s.tracers == old(s.tracers) && s.covariance == old(s.covariance)
    {
      var fp := FieldPairs()[f];
      ghost var before := s.points;
      s.AddEllCl(FieldPairType(f), TracerName(pair.0, Spin(fp[0])), TracerName(pair.1, Spin(fp[1])),
                 lb, cells[fp], Ones(|lb|));
      assert s.points == before + FieldPairPoints(pair, cells, lb, f);
      AppendAssoc(old(s.points), PairPoints(pair, cells, lb, f), FieldPairPoints(pair, cells, lb, f));
    }
  }

  /** One container: tracers first, then data points, then the covariance. */
  method BuildSacc(mode: Mode, suffix: string, mapSets: seq<string>, freqTag: map<string, int>,
                   ps: seq<Pair>, lb: seq<real>, cellFiles: map<string, map<string, seq<real>>>, cov: Matrix)
    returns (s: Sacc)
    requires HasFreqTags(mapSets, freqTag) && CellFilesPresent(mode, suffix, ps, cellFiles, |lb|)
    ensures fresh(s)
    ensures s.Record() == SaccRecord(Tracers(mapSets, lb, freqTag), DataPoints(mode, suffix, ps, cellFiles, lb), cov)
  {
    s := new Sacc();
    AddMapSetTracers(s, mapSets, lb, freqTag);
    AddDataPoints(s, mode, suffix, ps, cellFiles, lb);
    s.AddCovariance(cov);
  }

  // ----- The whole compilation -----

  predicate AllCellFilesPresent(mode: Mode, ps: seq<Pair>, cellFiles: map<string, map<string, seq<real>>>, nb: nat)
  {
    forall id | 0 <= id < NumSims(mode) :: CellFilesPresent(mode, SimLabel(id, NumSims(mode)), ps, cellFiles, nb)
  }

  /** The file written for realisation id and what it holds. */
  function Output(mode: Mode, id: nat, mapSets: seq<string>, freqTag: map<string, int>, ps: seq<Pair>,
                  lb: seq<real>, covFiles: map<string, map<string, Matrix>>,
                  cellFiles: map<string, map<string, seq<real>>>): (string, SaccRecord)
    requires HasFreqTags(mapSets, freqTag) && CovFilesPresent(ps, covFiles, |lb|)
    requires id < NumSims(mode) && AllCellFilesPresent(mode, ps, cellFiles, |lb|)
  {
    var suffix := SimLabel(id, NumSims(mode));
    (OutputFileName(suffix),
     SaccRecord(Tracers(mapSets, lb, freqTag), DataPoints(mode, suffix, ps, cellFiles, lb),
                FullCovariance(ps, covFiles, |lb|)))
  }

  /** main: the covariance is compiled once, then one container per
      realisation is filled and saved under its own name. */
  method Compile(mode: Mode, mapSets: seq<string>, freqTag: map<string, int>, ps: seq<Pair>, lb: seq<real>,
                 covFiles: map<string, map<string, Matrix>>, cellFiles: map<string, map<string, seq<real>>>)
    returns (outputs: seq<(string, SaccRecord)>)
    requires HasFreqTags(mapSets, freqTag) && CovFilesPresent(ps, covFiles, |lb|)
    requires AllCellFilesPresent(mode, ps, cellFiles, |lb|)
    ensures |outputs| == NumSims(mode)
    ensures forall id | 0 <= id < |outputs| ::
      outputs[id] == Output(mode, id, mapSets, freqTag, ps, lb, covFiles, cellFiles)
  {
    var fullCov := CompileCovariance(ps, covFiles, |lb|);
    var cov := ToSeq(fullCov);
    outputs := [];
    for id := 0 to NumSims(mode)
      invariant |outputs| == id
      invariant forall id' | 0 <= id' < id ::
        outputs[id'] == Output(mode, id', mapSets, freqTag, ps, lb, covFiles, cellFiles)
    {
      var out := CompileRealisation(mode, id, mapSets, freqTag, ps, lb, covFiles, cellFiles, cov);
      outputs := outputs + [out];
    }
  }

  /** One pass of the realisation loop: fill a container and name its file. */
  method CompileRealisation(mode: Mode, id: nat, mapSets: seq<string>, freqTag: map<string, int>, ps: seq<Pair>,
                            lb: seq<real>, covFiles: map<string, map<string, Matrix>>,
                            cellFiles: map<string, map<string, seq<real>>>, cov: Matrix)
    returns (out: (string, SaccRecord))
    requires HasFreqTags(mapSets, freqTag) && CovFilesPresent(ps, covFiles, |lb|)
    requires id < NumSims(mode) && AllCellFilesPresent(mode, ps, cellFiles, |lb|)
    requires cov == FullCovariance(ps, covFiles, |lb|)
    ensures out == Output(mode, id, mapSets, freqTag, ps, lb, covFiles, cellFiles)
  {
    var suffix := SimLabel(id, NumSims(mode));
    var s := BuildSacc(mode, suffix, mapSets, freqTag, ps, lb, cellFiles, cov);
    out := (OutputFileName(suffix), s.Record());
  }

  /** The data vector and the covariance have the same dimension. */
  lemma DataVectorMatchesCovariance(mode: Mode, id: nat, mapSets: seq<string>, freqTag: map<string, int>,
                                    ps: seq<Pair>, lb: seq<real>, covFiles: map<string, map<string, Matrix>>,
                                    cellFiles: map<string, map<string, seq<real>>>)
    requires HasFreqTags(mapSets, freqTag) && CovFilesPresent(ps, covFiles, |lb|)
    requires id < NumSims(mode) && AllCellFilesPresent(mode, ps, cellFiles, |lb|)
    ensures var rec := Output(mode, id, mapSets, freqTag, ps, lb, covFiles, cellFiles).1;
            |rec.points| == |rec.covariance| == |ps| * (9 * |lb|)
  {
    DataPointsLength(mode, SimLabel(id, NumSims(mode)), ps, cellFiles, lb);
  }

  /** Different realisations are written to different files, all with the
      same tracers and the same covariance. */
  lemma OutputsDistinct(mode: Mode, id1: nat, id2: nat, mapSets: seq<string>, freqTag: map<string, int>,
                        ps: seq<Pair>, lb: seq<real>, covFiles: map<string, map<string, Matrix>>,
                        cellFiles: map<string, map<string, seq<real>>>)
    requires HasFreqTags(mapSets, freqTag) && CovFilesPresent(ps, covFiles, |lb|)
    requires id1 < NumSims(mode) && id2 < NumSims(mode) && id1 != id2
    requires AllCellFilesPresent(mode, ps, cellFiles, |lb|)
    ensures Output(mode, id1, mapSets, freqTag, ps, lb, covFiles, cellFiles).0
         != Output(mode, id2, mapSets, freqTag, ps, lb, covFiles, cellFiles).0
    ensures Output(mode, id1, mapSets, freqTag, ps, lb, covFiles, cellFiles).1.covariance
         == Output(mode, id2, mapSets, freqTag, ps, lb, covFiles, cellFiles).1.covariance
    ensures Output(mode, id1, mapSets, freqTag, ps, lb, covFiles, cellFiles).1.tracers
         == Output(mode, id2, mapSets, freqTag, ps, lb, covFiles, cellFiles).1.tracers
  {
    var n := NumSims(mode);
    var s1, s2 := SimLabel(id1, n), SimLabel(id2, n);
    SimLabelsDistinct(id1, id2, n);
    SimLabelShape(id1, n);
    SimLabelShape(id2, n);
    var name1, name2 := OutputFileName(s1), OutputFileName(s2);
    var pre := "saccs/cl_and_cov_sacc";
    if |s1| == |s2| {
      assert name1[|pre|..|pre| + |s1|] == s1;
      assert name2[|pre|..|pre| + |s2|] == s2;
    } else {
      assert |name1| != |name2|;
    }
  }
}
