/** Selection of the per-split spectra that belong to one coadded pair of
    map sets, sorted into cross-split and auto-split lists. */
module SplitPairs {

  type Pair = (string, string)

  /** The result dictionary, which always holds both lists. */
  datatype SplitPairs = SplitPairs(auto: seq<Pair>, cross: seq<Pair>)

  datatype Target = Cross | Auto | Dropped

  /** Where one split pair goes: it must extend both coadded map-set names;
      cross-split membership is tested before auto-split membership. */
  function Classify(ms1: string, ms2: string, cross: seq<Pair>, auto: seq<Pair>, p: Pair): (t: Target)
    ensures t == Cross <==> ms1 <= p.0 && ms2 <= p.1 && p in cross
    ensures t == Auto <==> ms1 <= p.0 && ms2 <= p.1 && p !in cross && p in auto
  {
    if !(ms1 <= p.0 && ms2 <= p.1) then Dropped
    else if p in cross then Cross
    else if p in auto then Auto
    else Dropped
  }

  /** The pairs of all, in order, that go to t. */
  function Routed(ms1: string, ms2: string, cross: seq<Pair>, auto: seq<Pair>, all: seq<Pair>, t: Target): seq<Pair>
  {
    if all == [] then []
    else
      var p := all[|all| - 1];
      Routed(ms1, ms2, cross, auto, all[..|all| - 1], t)
        + (if Classify(ms1, ms2, cross, auto, p) == t then [p] else [])
  }

  method GetSplitPairs(ms1: string, ms2: string, all: seq<Pair>, cross: seq<Pair>, auto: seq<Pair>)
    returns (r: SplitPairs)
    ensures r.cross == Routed(ms1, ms2, cross, auto, all, Cross)
    ensures r.auto == Routed(ms1, ms2, cross, auto, all, Auto)
  {
    r := SplitPairs([], []);
    for i := 0 to |all|
      invariant r.cross == Routed(ms1, ms2, cross, auto, all[..i], Cross)
      invariant r.auto == Routed(ms1, ms2, cross, auto, all[..i], Auto)
    {
      var p := all[i];
      assert all[..i + 1][..i] == all[..i];
      if !(ms1 <= p.0 && ms2 <= p.1) {
        continue;
      }
      if p in cross {
        r := r.(cross := r.cross + [p]);
      } else if p in auto {
        r := r.(auto := r.auto + [p]);
      }
    }
    assert all[..|all|] == all;
  }

  /** Routing distributes over concatenation, so input order is kept. */
  lemma {:induction false} RoutedConcat(ms1: string, ms2: string, cross: seq<Pair>, auto: seq<Pair>,
                                        a: seq<Pair>, b: seq<Pair>, t: Target)
    ensures Routed(ms1, ms2, cross, auto, a + b, t)
         == Routed(ms1, ms2, cross, auto, a, t) + Routed(ms1, ms2, cross, auto, b, t)
  {
    if b == [] {
      assert a + b == a;
    } else {
      var init := b[..|b| - 1];
      assert (a + b)[..|a + b| - 1] == a + init;
      RoutedConcat(ms1, ms2, cross, auto, a, init, t);
    }
  }

  /** Each pair occurs in the list for t as often as in the input when it
      goes to t, and not at all otherwise. */
  lemma {:induction false} RoutedCount(ms1: string, ms2: string, cross: seq<Pair>, auto: seq<Pair>,
                                       all: seq<Pair>, t: Target, p: Pair)
    ensures multiset(Routed(ms1, ms2, cross, auto, all, t))[p]
         == if Classify(ms1, ms2, cross, auto, p) == t then multiset(all)[p] else 0
  {
    if all != [] {
      var init := all[..|all| - 1];
      assert all == init + [all[|all| - 1]];
      RoutedCount(ms1, ms2, cross, auto, init, t, p);
    }
  }

  /** A pair is in the list for t exactly when it is an input pair that goes to t. */
  lemma RoutedMembers(ms1: string, ms2: string, cross: seq<Pair>, auto: seq<Pair>,
                      all: seq<Pair>, t: Target, p: Pair)
    ensures p in Routed(ms1, ms2, cross, auto, all, t) <==> p in all && Classify(ms1, ms2, cross, auto, p) == t
  {
    RoutedCount(ms1, ms2, cross, auto, all, t, p);
  }

  /** What the returned lists hold: kept pairs extend both map-set names, a
      pair in both name lists goes only to cross, and a pair in neither is dropped. */
  lemma SplitPairsContents(ms1: string, ms2: string, all: seq<Pair>, cross: seq<Pair>, auto: seq<Pair>, p: Pair)
    ensures var c := Routed(ms1, ms2, cross, auto, all, Cross);
            var a := Routed(ms1, ms2, cross, auto, all, Auto);
            (p in c <==> p in all && ms1 <= p.0 && ms2 <= p.1 && p in cross)
            && (p in a <==> p in all && ms1 <= p.0 && ms2 <= p.1 && p !in cross && p in auto)
            && !(p in c && p in a)
  {
    RoutedMembers(ms1, ms2, cross, auto, all, Cross, p);
    RoutedMembers(ms1, ms2, cross, auto, all, Auto, p);
  }

  /** Every input pair lands in exactly one of cross, auto or dropped. */
  lemma {:induction false} RoutedPartition(ms1: string, ms2: string, cross: seq<Pair>, auto: seq<Pair>, all: seq<Pair>)
    ensures |Routed(ms1, ms2, cross, auto, all, Cross)| + |Routed(ms1, ms2, cross, auto, all, Auto)|
            + |Routed(ms1, ms2, cross, auto, all, Dropped)| == |all|
  {
    if all != [] {
      RoutedPartition(ms1, ms2, cross, auto, all[..|all| - 1]);
    }
  }
}
