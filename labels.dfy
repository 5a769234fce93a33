/** The labelling rules of the sacc compilation: field-pair order, data-type
    codes, tracer names and the realisation suffix of output files. */
module SaccLabels {

  /** The three fields, in the order the compiler enumerates them. */
  const Fields: string := "TEB"

  /** Field pairs as itertools.product("TEB", repeat=2): first field major. */
  function FieldPairs(): (fps: seq<string>)
    ensures |fps| == 9
    ensures forall k | 0 <= k < 9 :: |fps[k]| == 2 && fps[k][0] in Fields && fps[k][1] in Fields
  {
    seq(9, k requires 0 <= k < 9 => [Fields[k / 3], Fields[k % 3]])
  }

  lemma FieldPairOrder()
    ensures FieldPairs() == ["TT", "TE", "TB", "ET", "EE", "EB", "BT", "BE", "BB"]
  {
  }

  /** The 81 covariance keys fp1 + fp2 are pairwise distinct, so each
      (fp1, fp2) sub-block is read from its own entry. */
  lemma CovarianceKeysDistinct(p: nat, q: nat, p': nat, q': nat)
    requires p < 9 && q < 9 && p' < 9 && q' < 9
    requires FieldPairs()[p] + FieldPairs()[q] == FieldPairs()[p'] + FieldPairs()[q']
    ensures p == p' && q == q'
  {
    var fps := FieldPairs();
    var s, s' := fps[p] + fps[q], fps[p'] + fps[q'];
    assert fps[p] == s[..2] && fps[p'] == s'[..2];
    assert fps[q] == s[2..] && fps[q'] == s'[2..];
    FieldPairOrder();
  }

  /** Single-character code of each field in a data type. */
  const DataTypes: map<char, char> := map['T' := '0', 'E' := 'e', 'B' := 'b']

  function DataType(fp: string): (dt: string)
    requires |fp| == 2 && fp[0] in DataTypes && fp[1] in DataTypes
    ensures |dt| == 5 && dt[..3] == "cl_"
    ensures dt[3] == DataTypes[fp[0]] && dt[4] == DataTypes[fp[1]]
  {
    "cl_" + [DataTypes[fp[0]], DataTypes[fp[1]]]
  }

  /** The data types emitted for the nine field pairs, in field-pair order;
      no two field pairs share a data type. */
  lemma DataTypesOfFieldPairs()
    ensures forall k | 0 <= k < 9 :: FieldPairs()[k][0] in DataTypes && FieldPairs()[k][1] in DataTypes
    ensures seq(9, k requires 0 <= k < 9 => DataType(FieldPairs()[k]))
         == ["cl_00", "cl_0e", "cl_0b", "cl_e0", "cl_ee", "cl_eb", "cl_b0", "cl_be", "cl_bb"]
    ensures forall k, k' | 0 <= k < 9 && 0 <= k' < 9 && k != k' ::
              DataType(FieldPairs()[k]) != DataType(FieldPairs()[k'])
  {
    FieldPairOrder();
    var fps := FieldPairs();
    var dts := seq(9, k requires 0 <= k < 9 => DataType(fps[k]));
    var expected := ["cl_00", "cl_0e", "cl_0b", "cl_e0", "cl_ee", "cl_eb", "cl_b0", "cl_be", "cl_bb"];
    forall k | 0 <= k < 9
      ensures dts[k] == expected[k]
    {
      assert dts[k] == "cl_" + [DataTypes[fps[k][0]], DataTypes[fps[k][1]]];
    }
    forall k, k' | 0 <= k < 9 && 0 <= k' < 9 && k != k'
      ensures DataType(FieldPairs()[k]) != DataType(FieldPairs()[k'])
    {
      assert fps[k] != fps[k'];
      DataTypeInjective(fps[k], fps[k']);
    }
  }

  /** Distinct field pairs have distinct data types: the field codes are distinct. */
  lemma DataTypeInjective(fp: string, fp': string)
    requires |fp| == 2 && fp[0] in DataTypes && fp[1] in DataTypes
    requires |fp'| == 2 && fp'[0] in DataTypes && fp'[1] in DataTypes
    requires fp != fp'
    ensures DataType(fp) != DataType(fp')
  {
    if fp[0] != fp'[0] {
      assert DataType(fp)[3] != DataType(fp')[3];
    } else {
      assert fp[1] != fp'[1];
      assert DataType(fp)[4] != DataType(fp')[4];
    }
  }

  /** Spin of a field: 0 for temperature, 2 for the polarisation fields. */
  function Spin(f: char): (s: nat)
    ensures s == 0 <==> f == 'T'
    ensures s == 0 || s == 2
  {
    if f == 'T' then 0 else 2
  }

  /** Decimal digits of a natural number, most significant first (Python's str). */
  function Decimal(n: nat): (s: string)
    ensures |s| >= 1
    decreases n
  {
    if n < 10 then [DigitChar(n)] else Decimal(n / 10) + [DigitChar(n % 10)]
  }

  function DigitChar(d: nat): (c: char)
    requires d < 10
    ensures '0' <= c <= '9'
  {
    (48 + d) as char
  }

  predicate AllDigits(s: string)
  {
    forall i | 0 <= i < |s| :: '0' <= s[i] <= '9'
  }

  /** The number a string of decimal digits denotes. */
  function DecimalValue(s: string): nat
    requires AllDigits(s)
  {
    if s == [] then 0 else DecimalValue(s[..|s| - 1]) * 10 + (s[|s| - 1] as int - 48)
  }

  lemma {:induction false} DecimalRoundTrip(n: nat)
    ensures AllDigits(Decimal(n)) && DecimalValue(Decimal(n)) == n
    decreases n
  {
    if n >= 10 {
      DecimalRoundTrip(n / 10);
      var s := Decimal(n);
      assert s[..|s| - 1] == Decimal(n / 10);
    }
  }

  function Pow10(k: nat): (p: nat)
    ensures p >= 1
  {
    if k == 0 then 1 else 10 * Pow10(k - 1)
  }

  lemma {:induction false} DecimalLength(n: nat, k: nat)
    requires k >= 1 && n < Pow10(k)
    ensures |Decimal(n)| <= k
    decreases k
  {
    if n >= 10 {
      DecimalLength(n / 10, k - 1);
    }
  }

  /** Left-pads s with '0' up to width characters (format spec "0<width>d"). */
  function ZeroPad(s: string, width: nat): (p: string)
    ensures |p| == if |s| >= width then |s| else width
    ensures p[|p| - |s|..] == s
    ensures forall i | 0 <= i < |p| - |s| :: p[i] == '0'
  {
    if |s| >= width then s else seq(width - |s|, _ => '0') + s
  }

  lemma {:induction false} LeadingZerosValue(z: string, s: string)
    requires forall i | 0 <= i < |z| :: z[i] == '0'
    requires AllDigits(s)
    ensures AllDigits(z + s) && DecimalValue(z + s) == DecimalValue(s)
    decreases |s|
  {
    if s == [] {
      assert z + s == z;
      ZerosValue(z);
    } else {
      var t := z + s;
      assert t[..|t| - 1] == z + s[..|s| - 1];
      LeadingZerosValue(z, s[..|s| - 1]);
    }
  }

  lemma {:induction false} ZerosValue(z: string)
    requires forall i | 0 <= i < |z| :: z[i] == '0'
    ensures AllDigits(z) && DecimalValue(z) == 0
    decreases |z|
  {
    if z != [] {
      ZerosValue(z[..|z| - 1]);
    }
  }

  /** Output-file suffix of realisation id out of nSims: "_" and the id padded
      to four digits when there is more than one realisation, else empty. */
  function SimLabel(id: nat, nSims: nat): (suffix: string)
    ensures nSims <= 1 <==> suffix == ""
  {
    if nSims > 1 then "_" + ZeroPad(Decimal(id), 4) else ""
  }

  /** With several realisations, the suffix is "_" followed by digits that
      denote the id, exactly four of them when id < 10000. */
  lemma SimLabelShape(id: nat, nSims: nat)
    requires nSims > 1
    ensures |SimLabel(id, nSims)| >= 5 && SimLabel(id, nSims)[0] == '_'
    ensures AllDigits(SimLabel(id, nSims)[1..]) && DecimalValue(SimLabel(id, nSims)[1..]) == id
    ensures id < 10000 ==> |SimLabel(id, nSims)| == 5
  {
    var d := Decimal(id);
    DecimalRoundTrip(id);
    var p := ZeroPad(d, 4);
    var suffix := SimLabel(id, nSims);
    assert suffix == "_" + p;
    assert suffix[1..] == p;
    PaddedValue(d);
    if id < 10000 {
      assert Pow10(4) == 10000;
      DecimalLength(id, 4);
    }
  }

  /** Zero padding keeps a digit string's value. */
  lemma PaddedValue(d: string)
    requires AllDigits(d)
    ensures AllDigits(ZeroPad(d, 4)) && DecimalValue(ZeroPad(d, 4)) == DecimalValue(d)
  {
    if |d| < 4 {
      var z := seq(4 - |d|, _ => '0');
      assert ZeroPad(d, 4) == z + d;
      LeadingZerosValue(z, d);
    }
  }

  /** Distinct realisations get distinct suffixes, hence distinct file names. */
  lemma SimLabelsDistinct(id1: nat, id2: nat, nSims: nat)
    requires nSims > 1 && id1 != id2
    ensures SimLabel(id1, nSims) != SimLabel(id2, nSims)
  {
    SimLabelShape(id1, nSims);
    SimLabelShape(id2, nSims);
  }

  /** Name of the tracer of map set ms with the given spin: "<ms>_s<spin>". */
  function TracerName(ms: string, spin: nat): string
  {
    ms + "_s" + Decimal(spin)
  }

  /** The tracer a field of map set ms refers to: ms_s0 for T, ms_s2 for E and B. */
  lemma TracerNameOfField(ms: string, f: char)
    ensures TracerName(ms, Spin(f)) == ms + (if f == 'T' then "_s0" else "_s2")
  {
  }
}
