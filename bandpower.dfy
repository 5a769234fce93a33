/** Binning of validation power spectra with bandpower window functions:
    per spin block the input spectra are stacked, truncated to lmax + 1
    multipoles, contracted with a four-index window and unpacked per field pair. */
module BandpowerWindow {
  import opened Arith

  /** W[out field][bin][in field][ell]. */
  type Window = seq<seq<seq<seq<real>>>>

  /** Every window row contracts against nIn spectra of nl multipoles. */
  predicate WindowShaped(w: Window, nIn: nat, nl: nat)
  {
    forall i, j | 0 <= i < |w| && 0 <= j < |w[i]| ::
      |w[i][j]| == nIn && forall k | 0 <= k < nIn :: |w[i][j][k]| == nl
  }

  predicate VecShaped(vec: seq<seq<real>>, nl: nat)
  {
    forall k | 0 <= k < |vec| :: |vec[k]| == nl
  }

  /** Sum over the first n multipoles of x[l] * y[l]. */
  function Dot(x: seq<real>, y: seq<real>, n: nat): real
    requires n <= |x| && n <= |y|
  {
    if n == 0 then 0.0 else Dot(x, y, n - 1) + x[n - 1] * y[n - 1]
  }

  /** Sum over the first k input fields of their multipole sums. */
  function FieldSum(w: seq<seq<real>>, vec: seq<seq<real>>, k: nat, nl: nat): real
    requires k <= |w| && k <= |vec|
    requires forall g | 0 <= g < k :: |w[g]| == nl && |vec[g]| == nl
  {
    if k == 0 then 0.0 else FieldSum(w, vec, k - 1, nl) + Dot(w[k - 1], vec[k - 1], nl)
  }

  /** einsum("ijkl,kl"): result[i][j] = sum over k, l of w[i][j][k][l] * vec[k][l]. */
  function Einsum(w: Window, vec: seq<seq<real>>, nl: nat): (r: seq<seq<real>>)
    requires WindowShaped(w, |vec|, nl) && VecShaped(vec, nl)
    ensures |r| == |w| && forall i | 0 <= i < |w| :: |r[i]| == |w[i]|
  {
    seq(|w|, i requires 0 <= i < |w| =>
      seq(|w[i]|, j requires 0 <= j < |w[i]| => FieldSum(w[i][j], vec, |vec|, nl)))
  }

  datatype SpinComb = Spin0xSpin0 | Spin0xSpin2 | Spin2xSpin2

  const SpinCombs: seq<SpinComb> := [Spin0xSpin0, Spin0xSpin2, Spin2xSpin2]
  const ValTypes: seq<string> := ["tf_val", "cosmo"]

  function WindowKey(comb: SpinComb): string
  {
    match comb
    case Spin0xSpin0 => "bp_win_spin0xspin0"
    case Spin0xSpin2 => "bp_win_spin0xspin2"
    case Spin2xSpin2 => "bp_win_spin2xspin2"
  }

  /** The spectra stacked, in order, as the window's input fields: EB is
      used for both mixed polarisation slots and BE is never read. */
  function InputPairs(comb: SpinComb): seq<string>
  {
    match comb
    case Spin0xSpin0 => ["TT"]
    case Spin0xSpin2 => ["TE", "TB"]
    case Spin2xSpin2 => ["EE", "EB", "EB", "BB"]
  }

  /** The field pairs the window's output fields are stored under. */
  function OutputPairs(comb: SpinComb): seq<string>
  {
    match comb
    case Spin0xSpin0 => ["TT"]
    case Spin0xSpin2 => ["TE", "TB"]
    case Spin2xSpin2 => ["EE", "EB", "BE", "BB"]
  }

  const InputNames: seq<string> := ["TT", "TE", "TB", "EE", "EB", "BB"]
  const OutputNames: seq<string> := ["TT", "TE", "TB", "EE", "EB", "BE", "BB"]

  /** The spin block an output field pair belongs to, and its output slot there. */
  function CombOf(fp: string): SpinComb
  {
    if fp == "TT" then Spin0xSpin0
    else if fp == "TE" || fp == "TB" then Spin0xSpin2
    else Spin2xSpin2
  }

  function SlotOf(fp: string): nat
  {
    if fp == "TT" || fp == "TE" || fp == "EE" then 0
    else if fp == "TB" || fp == "EB" then 1
    else if fp == "BE" then 2
    else 3
  }

  lemma CombOfOutput(comb: SpinComb, fp: string)
    requires fp in OutputPairs(comb)
    ensures CombOf(fp) == comb && SlotOf(fp) < |OutputPairs(comb)| && OutputPairs(comb)[SlotOf(fp)] == fp
  {
  }

  lemma OutputSlots(fp: string)
    requires fp in OutputNames
    ensures SlotOf(fp) < |OutputPairs(CombOf(fp))| && OutputPairs(CombOf(fp))[SlotOf(fp)] == fp
  {
  }

  /** The spectra of one val type: every input pair, at least nl long. */
  predicate SpectraShaped(cls: map<string, seq<real>>, nl: nat)
  {
    forall fp | fp in InputNames :: fp in cls && |cls[fp]| >= nl
  }

  predicate InputsShaped(clsDict: map<string, map<string, seq<real>>>, nl: nat)
  {
    forall v | 0 <= v < |ValTypes| :: ValTypes[v] in clsDict && SpectraShaped(clsDict[ValTypes[v]], nl)
  }

  /** One window per spin block, contracting that block's stacked inputs and
      yielding at least as many output fields as the block stores. */
  predicate WindowsShaped(bpw: map<string, Window>, nl: nat)
  {
    forall c | 0 <= c < |SpinCombs| ::
      WindowKey(SpinCombs[c]) in bpw
      && |bpw[WindowKey(SpinCombs[c])]| >= |OutputPairs(SpinCombs[c])|
      && WindowShaped(bpw[WindowKey(SpinCombs[c])], |InputPairs(SpinCombs[c])|, nl)
  }

  lemma InputPairsKnown(comb: SpinComb, k: nat)
    requires k < |InputPairs(comb)|
    ensures InputPairs(comb)[k] in InputNames
  {
  }

  /** The stacked input of one spin block: each spectrum truncated to nl. */
  function Stack(cls: map<string, seq<real>>, comb: SpinComb, nl: nat): (vec: seq<seq<real>>)
    requires SpectraShaped(cls, nl)
    ensures |vec| == |InputPairs(comb)| && VecShaped(vec, nl)
  {
    var names := InputPairs(comb);
    seq(|names|, k requires 0 <= k < |names| =>
      InputPairsKnown(comb, k);
      cls[names[k]][..nl])
  }

  function CombIndex(comb: SpinComb): nat
  {
    match comb
    case Spin0xSpin0 => 0
    case Spin0xSpin2 => 1
    case Spin2xSpin2 => 2
  }

  /** The binned spectrum stored under (vt, fp). */
  function BinnedSpectrum(clsDict: map<string, map<string, seq<real>>>, nl: nat, bpw: map<string, Window>,
                          vt: string, fp: string): seq<real>
    requires InputsShaped(clsDict, nl) && WindowsShaped(bpw, nl)
    requires vt in ValTypes && fp in OutputNames
  {
    var comb := CombOf(fp);
    assert SpinCombs[CombIndex(comb)] == comb;
    OutputSlots(fp);
    Einsum(bpw[WindowKey(comb)], Stack(clsDict[vt], comb, nl), nl)[SlotOf(fp)]
  }

  /** The window of fp's spin block has an output row for fp's slot, and the
      binned spectrum is as long as that row. */
  lemma BinnedLength(clsDict: map<string, map<string, seq<real>>>, nl: nat, bpw: map<string, Window>,
                     vt: string, fp: string)
    requires InputsShaped(clsDict, nl) && WindowsShaped(bpw, nl)
    requires vt in ValTypes && fp in OutputNames
    ensures WindowKey(CombOf(fp)) in bpw && SlotOf(fp) < |bpw[WindowKey(CombOf(fp))]|
    ensures |BinnedSpectrum(clsDict, nl, bpw, vt, fp)| == |bpw[WindowKey(CombOf(fp))][SlotOf(fp)]|
  {
    var comb := CombOf(fp);
    assert SpinCombs[CombIndex(comb)] == comb;
    OutputSlots(fp);
  }

  /** Entry j of the binned spectrum: the contraction of the window row of fp's
      slot, at bin j, with the stacked spectra of val type vt. */
  lemma BinnedEntry(clsDict: map<string, map<string, seq<real>>>, nl: nat, bpw: map<string, Window>,
                    vt: string, fp: string, j: nat)
    requires InputsShaped(clsDict, nl) && WindowsShaped(bpw, nl)
    requires vt in ValTypes && fp in OutputNames && j < |BinnedSpectrum(clsDict, nl, bpw, vt, fp)|
    ensures WindowKey(CombOf(fp)) in bpw && ValTypes[0] in clsDict && ValTypes[1] in clsDict
    ensures WindowShaped(bpw[WindowKey(CombOf(fp))], |InputPairs(CombOf(fp))|, nl)
    ensures SlotOf(fp) < |bpw[WindowKey(CombOf(fp))]| && j < |bpw[WindowKey(CombOf(fp))][SlotOf(fp)]|
    ensures vt in clsDict && SpectraShaped(clsDict[vt], nl)
    ensures BinnedSpectrum(clsDict, nl, bpw, vt, fp)[j]
         == Einsum(bpw[WindowKey(CombOf(fp))], Stack(clsDict[vt], CombOf(fp), nl), nl)[SlotOf(fp)][j]
  {
    var comb := CombOf(fp);
    assert SpinCombs[CombIndex(comb)] == comb;
    OutputSlots(fp);
  }

  predicate IsOutputKey(key: (string, string))
  {
    key.0 in ValTypes && key.1 in OutputNames
  }

  /** The result keys filled by the first c spin blocks, and by the first v
      val types of block c. */
  predicate Done(key: (string, string), c: nat, v: nat)
  {
    IsOutputKey(key)
    && (CombIndex(CombOf(key.1)) < c
        || (CombIndex(CombOf(key.1)) == c && ((key.0 == "tf_val" && v > 0) || (key.0 == "cosmo" && v > 1))))
  }

  /** Stores the output fields of one spin block under its field pairs, for one val type. */
  method StoreBlock(binned: map<(string, string), seq<real>>, vt: string, comb: SpinComb, out: seq<seq<real>>)
    returns (r: map<(string, string), seq<real>>)
    requires |out| >= |OutputPairs(comb)|
    ensures forall key :: key in r <==> key in binned || (key.0 == vt && key.1 in OutputPairs(comb))
    ensures forall key | key in r ::
      r[key] == if key.0 == vt && key.1 in OutputPairs(comb) then out[SlotOf(key.1)] else binned[key]
  {
    match comb
    case Spin0xSpin0 =>
      r := binned[(vt, "TT") := out[0]];
    case Spin0xSpin2 =>
      r := binned[(vt, "TE") := out[0]][(vt, "TB") := out[1]];
    case Spin2xSpin2 =>
      r := binned[(vt, "EE") := out[0]][(vt, "EB") := out[1]][(vt, "BE") := out[2]][(vt, "BB") := out[3]];
  }

  /** Fills the result for every spin block and val type. */
  method BinValidationPowerSpectra(clsDict: map<string, map<string, seq<real>>>, lmax: nat,
                                   bpw: map<string, Window>)
    returns (binned: map<(string, string), seq<real>>)
    requires InputsShaped(clsDict, lmax + 1) && WindowsShaped(bpw, lmax + 1)
    ensures forall key :: key in binned <==> IsOutputKey(key)
    ensures forall key | key in binned && IsOutputKey(key) ::
      binned[key] == BinnedSpectrum(clsDict, lmax + 1, bpw, key.0, key.1)
  {
    var nl := lmax + 1;
    binned := map[];
    for c := 0 to 3
      invariant forall key :: key in binned <==> Done(key, c, 0)
      invariant forall key | key in binned && IsOutputKey(key) ::
        binned[key] == BinnedSpectrum(clsDict, nl, bpw, key.0, key.1)
    {
      var comb := SpinCombs[c];
      assert CombIndex(comb) == c;
      var w := bpw[WindowKey(comb)];
      for v := 0 to 2
        invariant forall key :: key in binned <==> Done(key, c, v)
        invariant forall key | key in binned && IsOutputKey(key) ::
          binned[key] == BinnedSpectrum(clsDict, nl, bpw, key.0, key.1)
      {
        var vt := ValTypes[v];
        var vec := Stack(clsDict[vt], comb, nl);
        var out := Einsum(w, vec, nl);
        ghost var before := binned;
        binned := StoreBlock(binned, vt, comb, out);
        forall key | key in binned && IsOutputKey(key)
          ensures binned[key] == BinnedSpectrum(clsDict, nl, bpw, key.0, key.1)
        {
          if key.0 == vt && key.1 in OutputPairs(comb) {
            CombOfOutput(comb, key.1);
          }
        }
        DoneStep(before, binned, c, v);
      }
    }
  }

  /** Storing the outputs of spin block c for val type v extends the filled
      keys from Done(c, v) to Done(c, v + 1). */
  lemma DoneStep(binned: map<(string, string), seq<real>>, r: map<(string, string), seq<real>>, c: nat, v: nat)
    requires c < 3 && v < 2
    requires forall key :: key in binned <==> Done(key, c, v)
    requires forall key :: key in r <==> key in binned || (key.0 == ValTypes[v] && key.1 in OutputPairs(SpinCombs[c]))
    ensures forall key :: key in r <==> Done(key, c, v + 1)
  {
    var comb := SpinCombs[c];
    assert CombIndex(comb) == c;
    forall key
      ensures key in r <==> Done(key, c, v + 1)
    {
      if key.1 in OutputPairs(comb) {
        CombOfOutput(comb, key.1);
      }
      if IsOutputKey(key) && CombIndex(CombOf(key.1)) == c {
        OutputSlots(key.1);
      }
    }
  }

  // ----- The contraction as one sum over the flattened (field, ell) index -----

  /** Row-major flattening: the fields of v, one after the other. */
  function Flatten(v: seq<seq<real>>): (f: seq<real>)
  {
    if v == [] then [] else Flatten(v[..|v| - 1]) + v[|v| - 1]
  }

  lemma {:induction false} FlattenLength(v: seq<seq<real>>, nl: nat)
    requires forall g | 0 <= g < |v| :: |v[g]| == nl
    ensures |Flatten(v)| == |v| * nl
  {
    if v != [] {
      FlattenLength(v[..|v| - 1], nl);
      MulSucc(|v|, nl);
    }
  }

  /** Dot reads only the first n entries of its arguments. */
  lemma {:induction false} DotPrefix(x: seq<real>, y: seq<real>, x': seq<real>, y': seq<real>, n: nat)
    requires n <= |x| && n <= |y| && n <= |x'| && n <= |y'|
    requires x[..n] == x'[..n] && y[..n] == y'[..n]
    ensures Dot(x, y, n) == Dot(x', y', n)
  {
    if n > 0 {
      assert x[n - 1] == x[..n][n - 1] && x'[n - 1] == x'[..n][n - 1];
      assert y[n - 1] == y[..n][n - 1] && y'[n - 1] == y'[..n][n - 1];
      assert x[..n - 1] == x[..n][..n - 1] && x'[..n - 1] == x'[..n][..n - 1];
      assert y[..n - 1] == y[..n][..n - 1] && y'[..n - 1] == y'[..n][..n - 1];
      DotPrefix(x, y, x', y', n - 1);
    }
  }

  /** The dot product over a concatenation is the sum of the dot products of the parts. */
  lemma {:induction false} DotAppend(x: seq<real>, y: seq<real>, x': seq<real>, y': seq<real>, n: nat)
    requires |x| == |x'| && n <= |y| && n <= |y'|
    ensures Dot(x + y, x' + y', |x| + n) == Dot(x, x', |x|) + Dot(y, y', n)
  {
    if n == 0 {
      assert (x + y)[..|x|] == x[..|x|] && (x' + y')[..|x|] == x'[..|x|];
      DotPrefix(x + y, x' + y', x, x', |x|);
    } else {
      DotAppend(x, y, x', y', n - 1);
      assert (x + y)[|x| + n - 1] == y[n - 1] && (x' + y')[|x| + n - 1] == y'[n - 1];
    }
  }

  /** The field-by-field contraction of the first k fields equals the single
      sum over all (field, ell) entries of the flattened window row and input. */
  lemma {:induction false} ContractionIsFlatSum(w: seq<seq<real>>, vec: seq<seq<real>>, nl: nat, k: nat)
    requires |w| == |vec| && k <= |vec|
    requires forall g | 0 <= g < |vec| :: |w[g]| == nl && |vec[g]| == nl
    ensures |Flatten(w[..k])| == |Flatten(vec[..k])| == k * nl
    ensures Dot(Flatten(w[..k]), Flatten(vec[..k]), k * nl) == FieldSum(w, vec, k, nl)
  {
    FlattenLength(w[..k], nl);
    FlattenLength(vec[..k], nl);
    if k > 0 {
      ContractionIsFlatSum(w, vec, nl, k - 1);
      assert w[..k][..k - 1] == w[..k - 1] && vec[..k][..k - 1] == vec[..k - 1];
      MulSucc(k, nl);
      DotAppend(Flatten(w[..k - 1]), w[k - 1], Flatten(vec[..k - 1]), vec[k - 1], nl);
    }
  }

  /** Entry (i, j) of the binned output is the dot product of the flattened
      window row w[i][j] with the flattened input. */
  lemma EinsumEntry(w: Window, vec: seq<seq<real>>, nl: nat, i: nat, j: nat)
    requires WindowShaped(w, |vec|, nl) && VecShaped(vec, nl)
    requires i < |w| && j < |w[i]|
    ensures |Flatten(w[i][j])| == |Flatten(vec)| == |vec| * nl
    ensures Einsum(w, vec, nl)[i][j] == Dot(Flatten(w[i][j]), Flatten(vec), |vec| * nl)
  {
    ContractionIsFlatSum(w[i][j], vec, nl, |vec|);
    assert w[i][j][..|vec|] == w[i][j] && vec[..|vec|] == vec;
  }

  // ----- Linearity -----

  /** m is c * v on the first nl multipoles of every field. */
  predicate Scaled(m: seq<seq<real>>, v: seq<seq<real>>, c: real, nl: nat)
  {
    |m| == |v|
    && (forall g | 0 <= g < |m| :: |m[g]| >= nl && |v[g]| >= nl)
    && forall g, l | 0 <= g < |m| && 0 <= l < nl :: ScaledEntry(m, v, c, g, l)
  }

  predicate ScaledEntry(m: seq<seq<real>>, v: seq<seq<real>>, c: real, g: nat, l: nat)
  {
    g < |m| && g < |v| && l < |m[g]| && l < |v[g]| && m[g][l] == c * v[g][l]
  }

  /** m is v1 + v2 on the first nl multipoles of every field. */
  predicate Summed(m: seq<seq<real>>, v1: seq<seq<real>>, v2: seq<seq<real>>, nl: nat)
  {
    |m| == |v1| == |v2|
    && (forall g | 0 <= g < |m| :: |m[g]| >= nl && |v1[g]| >= nl && |v2[g]| >= nl)
    && forall g, l | 0 <= g < |m| && 0 <= l < nl :: m[g][l] == v1[g][l] + v2[g][l]
  }

  lemma Distribute(c: real, x: real, y: real)
    ensures c * (x + y) == c * x + c * y
  {
  }

  /** A scaling between two values carries over to values equal to them. */
  lemma ScaledEqual(x: real, y: real, x': real, y': real, c: real)
    requires x == x' && y == y' && x' == c * y'
    ensures x == c * y
  {
  }

  lemma Commute(x: real, c: real, y: real)
    ensures x * (c * y) == c * (x * y)
  {
  }

  lemma {:induction false} DotScale(x: seq<real>, m: seq<real>, y: seq<real>, c: real, n: nat)
    requires n <= |x| && n <= |m| && n <= |y|
    requires forall l | 0 <= l < n :: m[l] == c * y[l]
    ensures Dot(x, m, n) == c * Dot(x, y, n)
  {
    if n > 0 {
      DotScale(x, m, y, c, n - 1);
      Commute(x[n - 1], c, y[n - 1]);
      Distribute(c, Dot(x, y, n - 1), x[n - 1] * y[n - 1]);
    }
  }

  lemma {:induction false} DotAdd(x: seq<real>, m: seq<real>, y: seq<real>, z: seq<real>, n: nat)
    requires n <= |x| && n <= |m| && n <= |y| && n <= |z|
    requires forall l | 0 <= l < n :: m[l] == y[l] + z[l]
    ensures Dot(x, m, n) == Dot(x, y, n) + Dot(x, z, n)
  {
    if n > 0 {
      DotAdd(x, m, y, z, n - 1);
      Distribute(x[n - 1], y[n - 1], z[n - 1]);
    }
  }

  /** A sum over fields of dot products that each scale by c scales by c. */
  lemma {:induction false} FieldSumScale(w: seq<seq<real>>, m: seq<seq<real>>, v: seq<seq<real>>,
                                         c: real, k: nat, nl: nat)
    requires |w| == |m| == |v| && k <= |m|
    requires forall g | 0 <= g < |m| :: |w[g]| == nl && |m[g]| == nl && |v[g]| == nl
    requires forall g | 0 <= g < k :: Dot(w[g], m[g], nl) == c * Dot(w[g], v[g], nl)
    ensures FieldSum(w, m, k, nl) == c * FieldSum(w, v, k, nl)
  {
    if k > 0 {
      FieldSumScale(w, m, v, c, k - 1, nl);
      Distribute(c, FieldSum(w, v, k - 1, nl), Dot(w[k - 1], v[k - 1], nl));
    }
  }

  /** A sum over fields of dot products that each add up adds up. */
  lemma {:induction false} FieldSumAdd(w: seq<seq<real>>, m: seq<seq<real>>, v1: seq<seq<real>>, v2: seq<seq<real>>,
                                       k: nat, nl: nat)
    requires |w| == |m| == |v1| == |v2| && k <= |m|
    requires forall g | 0 <= g < |m| :: |w[g]| == nl && |m[g]| == nl && |v1[g]| == nl && |v2[g]| == nl
    requires forall g | 0 <= g < k :: Dot(w[g], m[g], nl) == Dot(w[g], v1[g], nl) + Dot(w[g], v2[g], nl)
    ensures FieldSum(w, m, k, nl) == FieldSum(w, v1, k, nl) + FieldSum(w, v2, k, nl)
  {
    if k > 0 {
      FieldSumAdd(w, m, v1, v2, k - 1, nl);
    }
  }

  /** The contraction commutes with scaling its input. */
  lemma EinsumScale(w: Window, m: seq<seq<real>>, v: seq<seq<real>>, c: real, nl: nat, i: nat, j: nat)
    requires Scaled(m, v, c, nl) && WindowShaped(w, |m|, nl) && VecShaped(m, nl) && VecShaped(v, nl)
    requires i < |w| && j < |w[i]|
    ensures Einsum(w, m, nl)[i][j] == c * Einsum(w, v, nl)[i][j]
  {
    forall g | 0 <= g < |m|
      ensures Dot(w[i][j][g], m[g], nl) == c * Dot(w[i][j][g], v[g], nl)
    {
      forall l | 0 <= l < nl
        ensures m[g][l] == c * v[g][l]
      {
        assert ScaledEntry(m, v, c, g, l);
      }
      DotScale(w[i][j][g], m[g], v[g], c, nl);
    }
    FieldSumScale(w[i][j], m, v, c, |m|, nl);
  }

  /** The contraction of a sum of inputs is the sum of the contractions. */
  lemma EinsumAdd(w: Window, m: seq<seq<real>>, v1: seq<seq<real>>, v2: seq<seq<real>>, nl: nat, i: nat, j: nat)
    requires Summed(m, v1, v2, nl) && WindowShaped(w, |m|, nl)
    requires VecShaped(m, nl) && VecShaped(v1, nl) && VecShaped(v2, nl)
    requires i < |w| && j < |w[i]|
    ensures Einsum(w, m, nl)[i][j] == Einsum(w, v1, nl)[i][j] + Einsum(w, v2, nl)[i][j]
  {
    forall g | 0 <= g < |m|
      ensures Dot(w[i][j][g], m[g], nl) == Dot(w[i][j][g], v1[g], nl) + Dot(w[i][j][g], v2[g], nl)
    {
      DotAdd(w[i][j][g], m[g], v1[g], v2[g], nl);
    }
    FieldSumAdd(w[i][j], m, v1, v2, |m|, nl);
  }

  lemma StackEntry(cls: map<string, seq<real>>, comb: SpinComb, nl: nat, g: nat, l: nat)
    requires SpectraShaped(cls, nl) && g < |InputPairs(comb)| && l < nl
    ensures InputPairs(comb)[g] in cls && l < |cls[InputPairs(comb)[g]]|
    ensures Stack(cls, comb, nl)[g][l] == cls[InputPairs(comb)[g]][l]
  {
    InputPairsKnown(comb, g);
  }

  /** Spectra d are c * d1 on the first nl multipoles of every input pair. */
  predicate ScaledSpectra(d: map<string, map<string, seq<real>>>, d1: map<string, map<string, seq<real>>>,
                          c: real, nl: nat)
    requires InputsShaped(d, nl) && InputsShaped(d1, nl)
  {
    forall vt, fp, l | vt in ValTypes && fp in InputNames && 0 <= l < nl :: d[vt][fp][l] == c * d1[vt][fp][l]
  }

  /** Spectra d are d1 + d2 on the first nl multipoles of every input pair. */
  predicate SummedSpectra(d: map<string, map<string, seq<real>>>, d1: map<string, map<string, seq<real>>>,
                          d2: map<string, map<string, seq<real>>>, nl: nat)
    requires InputsShaped(d, nl) && InputsShaped(d1, nl) && InputsShaped(d2, nl)
  {
    forall vt, fp, l | vt in ValTypes && fp in InputNames && 0 <= l < nl ::
      d[vt][fp][l] == d1[vt][fp][l] + d2[vt][fp][l]
  }

  lemma StackScale(d: map<string, map<string, seq<real>>>, d1: map<string, map<string, seq<real>>>,
                   c: real, nl: nat, vt: string, comb: SpinComb)
    requires InputsShaped(d, nl) && InputsShaped(d1, nl) && ScaledSpectra(d, d1, c, nl) && vt in ValTypes
    ensures Scaled(Stack(d[vt], comb, nl), Stack(d1[vt], comb, nl), c, nl)
  {
    forall g, l | 0 <= g < |InputPairs(comb)| && 0 <= l < nl
      ensures ScaledEntry(Stack(d[vt], comb, nl), Stack(d1[vt], comb, nl), c, g, l)
    {
      StackScaleAt(d, d1, c, nl, vt, comb, g, l);
    }
  }

  lemma StackScaleAt(d: map<string, map<string, seq<real>>>, d1: map<string, map<string, seq<real>>>,
                     c: real, nl: nat, vt: string, comb: SpinComb, g: nat, l: nat)
    requires InputsShaped(d, nl) && InputsShaped(d1, nl) && ScaledSpectra(d, d1, c, nl) && vt in ValTypes
    requires g < |InputPairs(comb)| && l < nl
    ensures ScaledEntry(Stack(d[vt], comb, nl), Stack(d1[vt], comb, nl), c, g, l)
  {
    InputPairsKnown(comb, g);
    StackEntry(d[vt], comb, nl, g, l);
    StackEntry(d1[vt], comb, nl, g, l);
  }

  lemma StackAdd(d: map<string, map<string, seq<real>>>, d1: map<string, map<string, seq<real>>>,
                 d2: map<string, map<string, seq<real>>>, nl: nat, vt: string, comb: SpinComb)
    requires InputsShaped(d, nl) && InputsShaped(d1, nl) && InputsShaped(d2, nl)
    requires SummedSpectra(d, d1, d2, nl) && vt in ValTypes
    ensures Summed(Stack(d[vt], comb, nl), Stack(d1[vt], comb, nl), Stack(d2[vt], comb, nl), nl)
  {
    forall g, l | 0 <= g < |InputPairs(comb)| && 0 <= l < nl
      ensures Stack(d[vt], comb, nl)[g][l] == Stack(d1[vt], comb, nl)[g][l] + Stack(d2[vt], comb, nl)[g][l]
    {
      InputPairsKnown(comb, g);
      StackEntry(d[vt], comb, nl, g, l);
      StackEntry(d1[vt], comb, nl, g, l);
      StackEntry(d2[vt], comb, nl, g, l);
    }
  }

  /** Scaling every input spectrum by c scales every bandpower by c. */
  lemma BinnedScale(d: map<string, map<string, seq<real>>>, d1: map<string, map<string, seq<real>>>, c: real,
                    nl: nat, bpw: map<string, Window>, vt: string, fp: string, j: nat)
    requires InputsShaped(d, nl) && InputsShaped(d1, nl) && WindowsShaped(bpw, nl)
    requires forall vt', fp', l | vt' in ValTypes && fp' in InputNames && 0 <= l < nl :: d[vt'][fp'][l] == c * d1[vt'][fp'][l]
    requires vt in ValTypes && fp in OutputNames && j < |BinnedSpectrum(d, nl, bpw, vt, fp)|
    ensures |BinnedSpectrum(d1, nl, bpw, vt, fp)| == |BinnedSpectrum(d, nl, bpw, vt, fp)|
    ensures BinnedSpectrum(d, nl, bpw, vt, fp)[j] == c * BinnedSpectrum(d1, nl, bpw, vt, fp)[j]
  {
    StackScale(d, d1, c, nl, vt, CombOf(fp));
    BinnedScaleOfStack(d, d1, c, nl, bpw, vt, fp, j);
  }

  /** When the stacked input of fp's block for vt scales by c, so does entry j of the binned spectrum. */
  lemma BinnedScaleOfStack(d: map<string, map<string, seq<real>>>, d1: map<string, map<string, seq<real>>>, c: real,
                           nl: nat, bpw: map<string, Window>, vt: string, fp: string, j: nat)
    requires InputsShaped(d, nl) && InputsShaped(d1, nl) && WindowsShaped(bpw, nl)
    requires vt in ValTypes && fp in OutputNames && j < |BinnedSpectrum(d, nl, bpw, vt, fp)|
    requires Scaled(Stack(d[vt], CombOf(fp), nl), Stack(d1[vt], CombOf(fp), nl), c, nl)
    ensures |BinnedSpectrum(d1, nl, bpw, vt, fp)| == |BinnedSpectrum(d, nl, bpw, vt, fp)|
    ensures BinnedSpectrum(d, nl, bpw, vt, fp)[j] == c * BinnedSpectrum(d1, nl, bpw, vt, fp)[j]
  {
    BinnedLength(d, nl, bpw, vt, fp);
    BinnedLength(d1, nl, bpw, vt, fp);
    BinnedEntry(d, nl, bpw, vt, fp, j);
    BinnedEntry(d1, nl, bpw, vt, fp, j);
    var comb := CombOf(fp);
    var w, v, v1 := bpw[WindowKey(comb)], Stack(d[vt], comb, nl), Stack(d1[vt], comb, nl);
    EinsumScale(w, v, v1, c, nl, SlotOf(fp), j);
    ScaledEqual(BinnedSpectrum(d, nl, bpw, vt, fp)[j], BinnedSpectrum(d1, nl, bpw, vt, fp)[j],
                Einsum(w, v, nl)[SlotOf(fp)][j], Einsum(w, v1, nl)[SlotOf(fp)][j], c);
  }

  /** Adding two sets of input spectra adds the bandpowers. */
  lemma BinnedAdd(d: map<string, map<string, seq<real>>>, d1: map<string, map<string, seq<real>>>,
                  d2: map<string, map<string, seq<real>>>, nl: nat,
                  bpw: map<string, Window>, vt: string, fp: string, j: nat)
    requires InputsShaped(d, nl) && InputsShaped(d1, nl) && InputsShaped(d2, nl) && WindowsShaped(bpw, nl)
    requires forall vt', fp', l | vt' in ValTypes && fp' in InputNames && 0 <= l < nl ::
      d[vt'][fp'][l] == d1[vt'][fp'][l] + d2[vt'][fp'][l]
    requires vt in ValTypes && fp in OutputNames && j < |BinnedSpectrum(d, nl, bpw, vt, fp)|
    ensures |BinnedSpectrum(d1, nl, bpw, vt, fp)| == |BinnedSpectrum(d2, nl, bpw, vt, fp)|
         == |BinnedSpectrum(d, nl, bpw, vt, fp)|
    ensures BinnedSpectrum(d, nl, bpw, vt, fp)[j]
         == BinnedSpectrum(d1, nl, bpw, vt, fp)[j] + BinnedSpectrum(d2, nl, bpw, vt, fp)[j]
  {
    BinnedLength(d, nl, bpw, vt, fp);
    BinnedLength(d1, nl, bpw, vt, fp);
    BinnedLength(d2, nl, bpw, vt, fp);
    BinnedEntry(d, nl, bpw, vt, fp, j);
    BinnedEntry(d1, nl, bpw, vt, fp, j);
    BinnedEntry(d2, nl, bpw, vt, fp, j);
    var comb := CombOf(fp);
    StackAdd(d, d1, d2, nl, vt, comb);
    EinsumAdd(bpw[WindowKey(comb)], Stack(d[vt], comb, nl), Stack(d1[vt], comb, nl), Stack(d2[vt], comb, nl),
              nl, SlotOf(fp), j);
  }

  /** All-zero spectra give all-zero bandpowers. */
  lemma BinnedZero(d: map<string, map<string, seq<real>>>, nl: nat, bpw: map<string, Window>,
                   vt: string, fp: string, j: nat)
    requires InputsShaped(d, nl) && WindowsShaped(bpw, nl)
    requires forall vt', fp', l | vt' in ValTypes && fp' in InputNames && 0 <= l < nl :: d[vt'][fp'][l] == 0.0
    requires vt in ValTypes && fp in OutputNames && j < |BinnedSpectrum(d, nl, bpw, vt, fp)|
    ensures BinnedSpectrum(d, nl, bpw, vt, fp)[j] == 0.0
  {
    BinnedScale(d, d, 0.0, nl, bpw, vt, fp, j);
  }

  // ----- Block independence -----

  /** A stored bandpower reads only its own val type's spectra, only the
      input pairs of its spin block and only their first nl multipoles. */
  lemma BlockIndependence(d1: map<string, map<string, seq<real>>>, d2: map<string, map<string, seq<real>>>,
                          nl: nat, bpw: map<string, Window>, vt: string, fp: string)
    requires InputsShaped(d1, nl) && InputsShaped(d2, nl) && WindowsShaped(bpw, nl)
    requires vt in ValTypes && fp in OutputNames
    requires forall g | g in InputPairs(CombOf(fp)) :: d1[vt][g][..nl] == d2[vt][g][..nl]
    ensures BinnedSpectrum(d1, nl, bpw, vt, fp) == BinnedSpectrum(d2, nl, bpw, vt, fp)
  {
    var comb := CombOf(fp);
    var s1, s2 := Stack(d1[vt], comb, nl), Stack(d2[vt], comb, nl);
    forall k | 0 <= k < |s1|
      ensures s1[k] == s2[k]
    {
      InputPairsKnown(comb, k);
      assert InputPairs(comb)[k] in InputPairs(comb);
    }
    assert s1 == s2;
  }

  /** Which spectra each group of outputs reads: TT reads TT; TE and TB read
      TE and TB; EE, EB, BE and BB read EE, EB (in two slots) and BB, never BE. */
  lemma InputsRead(fp: string)
    requires fp in OutputNames
    ensures fp == "TT" ==> InputPairs(CombOf(fp)) == ["TT"]
    ensures fp in ["TE", "TB"] ==> InputPairs(CombOf(fp)) == ["TE", "TB"]
    ensures fp in ["EE", "EB", "BE", "BB"] ==> InputPairs(CombOf(fp)) == ["EE", "EB", "EB", "BB"]
    ensures "BE" !in InputPairs(CombOf(fp))
  {
  }
}
