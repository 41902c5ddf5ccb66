/** The analytics page: store-wide totals, the rating-weighted average, the
    tallies by department, tag and author, and the rankings built from them. */
module Analytics {
  import opened Types
  import opened Seqs
  import opened Store

  const TopTagCount := 10
  const TopContributorCount := 5

  // ---------------------------------------------------------------------
  // Tallies: `acc[key] = (acc[key] || 0) + 1` over the keys in order

  function CountIn(m: map<string, nat>, k: string): nat
  {
    if k in m then m[k] else 0
  }

  /** The dictionary after the keys are counted left to right. */
  function CountsOf(keys: seq<string>): map<string, nat>
  {
    if |keys| == 0 then map[]
    else
      var m := CountsOf(keys[..|keys| - 1]);
      var k := keys[|keys| - 1];
      m[k := CountIn(m, k) + 1]
  }

  /** The dictionary's keys in the order they were first counted. */
  function Distinct(keys: seq<string>): seq<string>
  {
    if |keys| == 0 then []
    else
      var prev := Distinct(keys[..|keys| - 1]);
      var k := keys[|keys| - 1];
      if k in prev then prev else prev + [k]
  }

  ghost predicate NoDuplicates(s: seq<string>)
  {
    forall i, j :: 0 <= i < j < |s| ==> s[i] != s[j]
  }

  /** Every key read is in the dictionary and nothing else is, with its number
      of occurrences; the first-seen order lists each key exactly once. */
  lemma {:induction false} TallyIsCount(keys: seq<string>)
    ensures forall k :: k in CountsOf(keys) <==> k in keys
    ensures forall k :: CountIn(CountsOf(keys), k) == multiset(keys)[k]
    ensures forall k :: k in Distinct(keys) <==> k in keys
    ensures NoDuplicates(Distinct(keys))
  {
    if |keys| > 0 {
      var init := keys[..|keys| - 1];
      TallyIsCount(init);
      assert keys == init + [keys[|keys| - 1]];
    }
  }

  /** The counts summed over the key order. */
  function SumCounts(order: seq<string>, m: map<string, nat>): nat
  {
    if |order| == 0 then 0 else SumCounts(order[..|order| - 1], m) + CountIn(m, order[|order| - 1])
  }

  lemma {:induction false} SumCountsIgnoresOthers(order: seq<string>, m: map<string, nat>, k: string, v: nat)
    requires k !in order
    ensures SumCounts(order, m[k := v]) == SumCounts(order, m)
  {
    if |order| > 0 {
      SumCountsIgnoresOthers(order[..|order| - 1], m, k, v);
    }
  }

  lemma {:induction false} SumCountsBump(order: seq<string>, m: map<string, nat>, k: string)
    requires NoDuplicates(order) && k in order
    ensures SumCounts(order, m[k := CountIn(m, k) + 1]) == SumCounts(order, m) + 1
  {
    var init := order[..|order| - 1];
    var last := order[|order| - 1];
    if last == k {
      assert k !in init;
      SumCountsIgnoresOthers(init, m, k, CountIn(m, k) + 1);
    } else {
      assert k in init by {
        var i :| 0 <= i < |order| && order[i] == k;
        assert i < |order| - 1;
        assert init[i] == k;
      }
      SumCountsBump(init, m, k);
    }
  }

  /** The dictionary's keys are the keys of the first-seen order, listed
      once each. */
  lemma TallyDomains(keys: seq<string>)
    ensures forall k :: k in CountsOf(keys) <==> k in Distinct(keys)
    ensures NoDuplicates(Distinct(keys))
  {
    TallyIsCount(keys);
  }

  /** The counts of a tally add up to the number of keys counted. */
  lemma {:induction false} TallyTotal(keys: seq<string>)
    ensures SumCounts(Distinct(keys), CountsOf(keys)) == |keys|
  {
    if |keys| > 0 {
      var init := keys[..|keys| - 1];
      var k := keys[|keys| - 1];
      var m := CountsOf(init);
      var d := Distinct(init);
      TallyTotal(init);
      TallyDomains(init);
      assert CountsOf(keys) == m[k := CountIn(m, k) + 1];
      if k in d {
        assert Distinct(keys) == d;
        SumCountsBump(d, m, k);
      } else {
        assert Distinct(keys) == d + [k];
        SumCountsIgnoresOthers(d, m, k, CountIn(m, k) + 1);
        assert (d + [k])[..|d|] == d;
      }
    }
  }

  /** The tally as the page builds it: one pass that updates the dictionary
      in place. */
  method Tally(keys: seq<string>) returns (counts: map<string, nat>, order: seq<string>)
    ensures counts == CountsOf(keys) && order == Distinct(keys)
  {
    counts := map[];
    order := [];
    var i := 0;
    while i < |keys|
      invariant 0 <= i <= |keys|
      invariant counts == CountsOf(keys[..i]) && order == Distinct(keys[..i])
    {
      var k := keys[i];
      TallyIsCount(keys[..i]);
      assert keys[..i + 1][..i] == keys[..i];
      if k in counts {
        counts := counts[k := counts[k] + 1];
      } else {
        counts := counts[k := 1];
        order := order + [k];
      }
      i := i + 1;
    }
    assert keys[..|keys|] == keys;
  }

  // ---------------------------------------------------------------------
  // Rankings: `Object.entries(stats).sort(([,a], [,b]) => b - a)`

  /** The dictionary's entries in key order. */
  function Entries(counts: map<string, nat>, order: seq<string>): (r: seq<(string, nat)>)
    ensures |r| == |order|
    ensures forall i :: 0 <= i < |order| ==> r[i] == (order[i], CountIn(counts, order[i]))
  {
    seq(|order|, i requires 0 <= i < |order| => (order[i], CountIn(counts, order[i])))
  }

  predicate CountFirst(a: (string, nat), b: (string, nat))
  {
    a.1 >= b.1
  }

  lemma CountFirstIsPreorder()
    ensures TotalPreorder(CountFirst)
  {
  }

  /** The entries of the tally of `keys`, largest count first, cut to `k`. */
  function Ranked(keys: seq<string>, k: nat): seq<(string, nat)>
  {
    TopK(Entries(CountsOf(keys), Distinct(keys)), CountFirst, k)
  }

  /** The entries are exactly the keys read, each paired with its number of
      occurrences. */
  lemma EntriesAreCounts(keys: seq<string>)
    ensures |Entries(CountsOf(keys), Distinct(keys))| == |Distinct(keys)|
    ensures forall e :: e in Entries(CountsOf(keys), Distinct(keys)) <==> e.0 in keys && e.1 == multiset(keys)[e.0]
  {
    var entries := Entries(CountsOf(keys), Distinct(keys));
    TallyIsCount(keys);
    forall e | e in entries ensures e.0 in keys && e.1 == multiset(keys)[e.0] {
      var i :| 0 <= i < |entries| && entries[i] == e;
    }
    forall x | x in keys ensures (x, multiset(keys)[x]) in entries {
      var i :| 0 <= i < |Distinct(keys)| && Distinct(keys)[i] == x;
      assert entries[i] == (x, multiset(keys)[x]);
    }
  }

  /** A ranking lists `min(k, number of distinct keys)` keys read, each with
      its number of occurrences, largest first. */
  lemma RankedIsTop(keys: seq<string>, k: nat)
    ensures |Ranked(keys, k)| == if |Distinct(keys)| < k then |Distinct(keys)| else k
    ensures forall e :: e in Ranked(keys, k) ==> e.0 in keys && e.1 == multiset(keys)[e.0]
    ensures SortedBy(Ranked(keys, k), CountFirst)
  {
    var entries := Entries(CountsOf(keys), Distinct(keys));
    var r := Ranked(keys, k);
    CountFirstIsPreorder();
    TopKIsTop(entries, CountFirst, k);
    EntriesAreCounts(keys);
    forall e | e in r ensures e.0 in keys && e.1 == multiset(keys)[e.0] {
      assert e in multiset(r);
      assert e in multiset(entries);
    }
  }

  /** No key left out of a ranking occurs more often than a listed one. */
  lemma RankedOmitsOnlyLesser(keys: seq<string>, k: nat, e: (string, nat), x: string)
    requires e in Ranked(keys, k) && x in keys && (x, multiset(keys)[x]) !in Ranked(keys, k)
    ensures e.1 >= multiset(keys)[x]
  {
    var entries := Entries(CountsOf(keys), Distinct(keys));
    var r := Ranked(keys, k);
    var f := (x, multiset(keys)[x]);
    CountFirstIsPreorder();
    TopKIsTop(entries, CountFirst, k);
    EntriesAreCounts(keys);
    assert multiset(r)[f] == 0;
    assert f in entries;
    assert CountFirst(e, f);
  }

  /** With `k` at least the number of distinct keys, every key is listed. */
  lemma RankedAllIsComplete(keys: seq<string>)
    ensures forall x :: x in keys ==> (x, multiset(keys)[x]) in Ranked(keys, |Distinct(keys)|)
  {
    var entries := Entries(CountsOf(keys), Distinct(keys));
    EntriesAreCounts(keys);
    var r := Ranked(keys, |Distinct(keys)|);
    assert r == SortBy(entries, CountFirst);
    forall x | x in keys ensures (x, multiset(keys)[x]) in r {
      assert (x, multiset(keys)[x]) in multiset(entries);
    }
  }

  // ---------------------------------------------------------------------
  // The page's figures

  function DepartmentKeys(docs: seq<Document>): (r: seq<string>)
    ensures |r| == |docs|
    ensures forall i :: 0 <= i < |docs| ==> r[i] == docs[i].department
  {
    seq(|docs|, i requires 0 <= i < |docs| => docs[i].department)
  }

  function AuthorKeys(docs: seq<Document>): (r: seq<string>)
    ensures |r| == |docs|
    ensures forall i :: 0 <= i < |docs| ==> r[i] == docs[i].author
  {
    seq(|docs|, i requires 0 <= i < |docs| => docs[i].author)
  }

  function TagLists(docs: seq<Document>): (r: seq<seq<string>>)
    ensures |r| == |docs|
    ensures forall i :: 0 <= i < |docs| ==> r[i] == docs[i].tags
  {
    seq(|docs|, i requires 0 <= i < |docs| => docs[i].tags)
  }

  /** Every tag occurrence of every record, repeats included. */
  function TagKeys(docs: seq<Document>): seq<string>
  {
    Flatten(TagLists(docs))
  }

  function RatingCount(d: Document): nat
  {
    d.totalRatings
  }

  function WeightedRating(d: Document): real
  {
    d.rating * (d.totalRatings as real)
  }

  /** `Σ rating·totalRatings / Σ totalRatings`, or `None` (shown as "0.0") when
      nothing has been rated. */
  function WeightedAverage(docs: seq<Document>): Option<real>
  {
    var n := SumNat(docs, RatingCount);
    if n > 0 then Some(SumReal(docs, WeightedRating) / (n as real)) else None
  }

  lemma {:induction false} WeightedSumBounded(docs: seq<Document>)
    requires RatingsInRange(docs)
    ensures 0.0 <= SumReal(docs, WeightedRating) <= 5.0 * (SumNat(docs, RatingCount) as real)
  {
    if |docs| > 0 {
      WeightedSumBounded(docs[1..]);
      var t := docs[0].totalRatings as real;
      assert 0.0 <= docs[0].rating * t <= 5.0 * t;
    }
  }

  /** The weighted average is present exactly when some rating was submitted,
      and then lies in 0..5 when every record's average does. */
  lemma WeightedAverageInRange(docs: seq<Document>)
    requires RatingsInRange(docs)
    ensures WeightedAverage(docs).Some? <==> SumNat(docs, RatingCount) > 0
    ensures WeightedAverage(docs).Some? ==> 0.0 <= WeightedAverage(docs).value <= 5.0
  {
    if SumNat(docs, RatingCount) > 0 {
      WeightedSumBounded(docs);
      DivideBounds(SumReal(docs, WeightedRating), SumNat(docs, RatingCount) as real, 5.0);
    }
  }

  /** Records no one has rated do not move the weighted average. */
  lemma UnratedRecordIgnored(d: Document, docs: seq<Document>)
    requires d.totalRatings == 0
    ensures WeightedAverage([d] + docs) == WeightedAverage(docs)
  {
    assert ([d] + docs)[1..] == docs;
  }

  /** Department counts add up to the number of documents, and tag counts to
      the total length of all tag lists. */
  lemma TallyTotals(docs: seq<Document>)
    ensures SumCounts(Distinct(DepartmentKeys(docs)), CountsOf(DepartmentKeys(docs))) == |docs|
    ensures SumCounts(Distinct(AuthorKeys(docs)), CountsOf(AuthorKeys(docs))) == |docs|
    ensures SumCounts(Distinct(TagKeys(docs)), CountsOf(TagKeys(docs)))
            == SumNat(TagLists(docs), (s: seq<string>) => |s|)
  {
    TallyTotal(DepartmentKeys(docs));
    TallyTotal(AuthorKeys(docs));
    TallyTotal(TagKeys(docs));
    FlattenLength(TagLists(docs));
  }

  datatype Summary = Summary(
    totalDocuments: nat,
    totalViews: nat,
    totalRatings: nat,
    avgRating: Option<real>,
    departmentStats: map<string, nat>,
    tagStats: map<string, nat>,
    contributorStats: map<string, nat>,
    topTags: seq<(string, nat)>,
    topDepartments: seq<(string, nat)>,
    topContributors: seq<(string, nat)>)

  /** Everything the page computes from the store. */
  method Summarize(docs: seq<Document>) returns (s: Summary)
    ensures s.totalDocuments == |docs| && s.totalViews == TotalViews(docs)
    ensures s.totalRatings == SumNat(docs, RatingCount) && s.avgRating == WeightedAverage(docs)
    ensures s.departmentStats == CountsOf(DepartmentKeys(docs))
    ensures s.tagStats == CountsOf(TagKeys(docs))
    ensures s.contributorStats == CountsOf(AuthorKeys(docs))
    ensures s.topTags == Ranked(TagKeys(docs), TopTagCount)
    ensures s.topDepartments == Ranked(DepartmentKeys(docs), |Distinct(DepartmentKeys(docs))|)
    ensures s.topContributors == Ranked(AuthorKeys(docs), TopContributorCount)
  {
    var departments, departmentOrder := Tally(DepartmentKeys(docs));
    var tags, tagOrder := Tally(TagKeys(docs));
    var contributors, contributorOrder := Tally(AuthorKeys(docs));
    s := Summary(
      |docs|, TotalViews(docs), SumNat(docs, RatingCount), WeightedAverage(docs),
      departments, tags, contributors,
      TopK(Entries(tags, tagOrder), CountFirst, TopTagCount),
      TopK(Entries(departments, departmentOrder), CountFirst, |departmentOrder|),
      TopK(Entries(contributors, contributorOrder), CountFirst, TopContributorCount));
  }
}
