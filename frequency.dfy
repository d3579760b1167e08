/** The opcode frequency vector as a value: a map from operator label to the
    number of times the label occurs.  `Histogram` folds `Tally`, the
    one-step update the scanner performs, over a sequence of labels;
    `HistogramCounts` ties it to Dafny's multisets, the independent account of
    "number of occurrences"; `Total` is the sum of all the counts. */
module Frequency {

  /** The frequency map a run of `Tally` steps builds from the empty map. */
  function Histogram(s: seq<string>): map<string, nat>
  {
    if s == [] then map[] else Tally(Histogram(s[..|s| - 1]), s[|s| - 1])
  }

  /** `*counts.entry(op).or_insert(0) += 1`: a missing key starts at 0,
      then the key's count goes up by one. */
  function Tally(counts: map<string, nat>, op: string): (r: map<string, nat>)
    ensures r.Keys == counts.Keys + {op}
    ensures r[op] == (if op in counts then counts[op] else 0) + 1
    ensures forall l :: l in counts && l != op ==> r[l] == counts[l]
  {
    counts[op := (if op in counts then counts[op] else 0) + 1]
  }

  /** Some key of a non-empty map. */
  ghost function Pick(m: map<string, nat>): (k: string)
    requires |m| != 0
    ensures k in m
  {
    var k :| k in m; k
  }

  /** The sum of all the counts of a map. */
  ghost function Total(m: map<string, nat>): nat
    decreases |m|
  {
    if |m| == 0 then 0
    else
      var k := Pick(m);
      RemoveShrinks(m, k);
      m[k] + Total(m - {k})
  }

  lemma RemoveShrinks(m: map<string, nat>, k: string)
    requires k in m
    ensures |m - {k}| == |m| - 1
  {
    assert (m - {k}).Keys == m.Keys - {k};
  }

  /** The sum does not depend on the key `Total` happens to pick first. */
  lemma {:induction false} TotalRemove(m: map<string, nat>, k: string)
    requires k in m
    ensures Total(m) == m[k] + Total(m - {k})
    decreases |m|
  {
    var k' := Pick(m);
    RemoveShrinks(m, k');
    assert Total(m) == m[k'] + Total(m - {k'});
    if k' != k {
      RemoveShrinks(m, k);
      TotalRemove(m - {k'}, k);
      TotalRemove(m - {k}, k');
      assert m - {k'} - {k} == m - {k} - {k'};
    }
  }

  /** Setting one key changes the sum by the difference of the two counts. */
  lemma TotalUpdate(m: map<string, nat>, k: string, v: nat)
    ensures Total(m[k := v]) + (if k in m then m[k] else 0) == Total(m) + v
  {
    TotalRemove(m[k := v], k);
    assert m[k := v] - {k} == m - {k};
    if k in m {
      TotalRemove(m, k);
    } else {
      assert m - {k} == m;
    }
  }

  /** Appending one label to the input is one `Tally` step on the map. */
  lemma HistogramSnoc(s: seq<string>, op: string)
    ensures Histogram(s + [op]) == Tally(Histogram(s), op)
  {
    assert (s + [op])[..|s|] == s;
  }

  /** The keys of the map are exactly the labels that occur, and each is
      mapped to its number of occurrences. */
  lemma {:induction false} HistogramCounts(s: seq<string>)
    ensures forall l :: l in Histogram(s) <==> l in s
    ensures forall l :: l in Histogram(s) ==> Histogram(s)[l] == multiset(s)[l]
    decreases |s|
  {
    if s != [] {
      var init, last := s[..|s| - 1], s[|s| - 1];
      assert s == init + [last];
      HistogramCounts(init);
      assert multiset(s) == multiset(init) + multiset{last};
    }
  }

  /** Every key of the map has a count of at least one. */
  lemma HistogramPositive(s: seq<string>)
    ensures forall l :: l in Histogram(s) ==> Histogram(s)[l] >= 1
  {
    HistogramCounts(s);
  }

  /** The counts of the map add up to the length of the input. */
  lemma {:induction false} TotalHistogram(s: seq<string>)
    ensures Total(Histogram(s)) == |s|
    decreases |s|
  {
    if s != [] {
      var init, last := s[..|s| - 1], s[|s| - 1];
      TotalHistogram(init);
      var h := Histogram(init);
      TotalUpdate(h, last, (if last in h then h[last] else 0) + 1);
      HistogramCounts(init);
    }
  }

  /** Labels are compared as whole strings: two different labels, however
      alike, get a count each and are never merged. */
  lemma DistinctLabelsStayApart(a: string, b: string)
    requires a != b
    ensures Histogram([a, b, a]) == map[a := 2, b := 1]
  {
    assert [a][..0] == [];
    assert Histogram([a]) == map[a := 1];
    assert [a, b][..1] == [a];
    assert Histogram([a, b]) == map[a := 1, b := 1];
    assert [a, b, a][..2] == [a, b];
  }
}
