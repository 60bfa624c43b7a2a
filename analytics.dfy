/**
 * The analytics summary over the diagnosis history: scan counts, a counter
 * per disease name, and the three most frequent names.
 *
 * The counting functions split a sequence at its LAST element, so that they
 * follow a loop that walks the history from the front.
 */
module Analytics {
  import opened Types

  /** How many issues the summary keeps. */
  const TopCount: nat := 3

  /** A scan that found nothing: its diagnosis list is absent or empty. */
  predicate IsHealthy(r: DiagnosisRecord)
  {
    r.diagnoses.None? || |r.diagnoses.value| == 0
  }

  function CountHealthy(rs: seq<DiagnosisRecord>): (n: nat)
    ensures n <= |rs|
  {
    if rs == [] then 0
    else CountHealthy(rs[..|rs| - 1]) + (if IsHealthy(rs[|rs| - 1]) then 1 else 0)
  }

  /** Number of entries named `name` in one diagnosis list. */
  function CountIn(ds: seq<Diagnosis>, name: string): nat
  {
    if ds == [] then 0
    else CountIn(ds[..|ds| - 1], name) + (if ds[|ds| - 1].disease == name then 1 else 0)
  }

  /** Number of entries named `name` over all records; a name repeated in one record counts each time. */
  function Occurrences(rs: seq<DiagnosisRecord>, name: string): nat
  {
    if rs == [] then 0
    else Occurrences(rs[..|rs| - 1], name) + CountIn(EntriesOf(rs[|rs| - 1].diagnoses), name)
  }

  /**
   * The per-name counters, as a JavaScript object holds them: the keys in the
   * order they were first set, and the value of each key.
   */
  datatype Counters = Counters(order: seq<string>, counts: map<string, nat>)

  const NoCounters := Counters([], map[])

  predicate DistinctKeys(order: seq<string>)
  {
    forall i, j :: 0 <= i < j < |order| ==> order[i] != order[j]
  }

  /** Each key listed once, listed exactly when it has a value, and every value at least 1. */
  ghost predicate WellFormed(c: Counters)
  {
    && DistinctKeys(c.order)
    && (forall n :: n in c.counts <==> n in c.order)
    && (forall n :: n in c.counts ==> c.counts[n] >= 1)
  }

  /** The value of a counter, 0 when its key was never set. */
  function Count(c: Counters, name: string): nat
  {
    if name in c.counts then c.counts[name] else 0
  }

  /** `counts[name] = (counts[name] || 0) + 1`: a new key goes to the end of the order. */
  function Bump(c: Counters, name: string): (r: Counters)
    requires WellFormed(c)
    ensures WellFormed(r)
    ensures Count(r, name) == Count(c, name) + 1
    ensures forall n :: n != name ==> Count(r, n) == Count(c, n)
  {
    if name in c.counts then Counters(c.order, c.counts[name := c.counts[name] + 1])
    else Counters(c.order + [name], c.counts[name := 1])
  }

  /** The counters after counting every entry of one diagnosis list. */
  function TallyDiagnoses(c: Counters, ds: seq<Diagnosis>): (r: Counters)
    requires WellFormed(c)
    ensures WellFormed(r)
  {
    if ds == [] then c
    else Bump(TallyDiagnoses(c, ds[..|ds| - 1]), ds[|ds| - 1].disease)
  }

  /** A healthy record leaves the counters alone; any other has its entries counted. */
  function TallyRecord(c: Counters, r: DiagnosisRecord): (r': Counters)
    requires WellFormed(c)
    ensures WellFormed(r')
  {
    if IsHealthy(r) then c else TallyDiagnoses(c, r.diagnoses.value)
  }

  /** The counters after walking the whole history from the front. */
  function Tally(rs: seq<DiagnosisRecord>): (c: Counters)
    ensures WellFormed(c)
  {
    if rs == [] then NoCounters
    else TallyRecord(Tally(rs[..|rs| - 1]), rs[|rs| - 1])
  }

  /** The (name, count) pairs in key order, as `Object.entries` lists them. */
  function Entries(c: Counters): (s: seq<Issue>)
    requires WellFormed(c)
    ensures |s| == |c.order|
  {
    seq(|c.order|, i requires 0 <= i < |c.order| => Issue(c.order[i], c.counts[c.order[i]]))
  }

  predicate SortedByCount(s: seq<Issue>)
  {
    forall i, j :: 0 <= i < j < |s| ==> s[i].count >= s[j].count
  }

  predicate DistinctNames(s: seq<Issue>)
  {
    forall i, j :: 0 <= i < j < |s| ==> s[i].name != s[j].name
  }

  /** Puts `x` before the first element whose count is not larger, so equal counts keep their order. */
  function Insert(x: Issue, s: seq<Issue>): (r: seq<Issue>)
    ensures multiset(r) == multiset(s) + multiset{x}
  {
    if s == [] || x.count >= s[0].count then [x] + s
    else
      assert s == [s[0]] + s[1..];
      [s[0]] + Insert(x, s[1..])
  }

  /** Inserting into a list sorted by descending count keeps it sorted. */
  lemma {:induction false} InsertSorted(x: Issue, s: seq<Issue>)
    requires SortedByCount(s)
    ensures SortedByCount(Insert(x, s))
  {
    if s != [] && x.count < s[0].count {
      var t := Insert(x, s[1..]);
      InsertSorted(x, s[1..]);
      forall k | 0 <= k < |t|
        ensures s[0].count >= t[k].count
      {
        assert t[k] in multiset(t);
        if t[k] != x {
          assert t[k] in multiset(s[1..]);
          var m :| 0 <= m < |s[1..]| && s[1..][m] == t[k];
          assert s[m + 1] == t[k];
        }
      }
    }
  }

  /** Stable sort by descending count: the `sort((a, b) => b - a)` step. */
  function SortByCount(s: seq<Issue>): (r: seq<Issue>)
    ensures multiset(r) == multiset(s)
    ensures SortedByCount(r)
  {
    if s == [] then []
    else
      assert s == [s[0]] + s[1..];
      InsertSorted(s[0], SortByCount(s[1..]));
      Insert(s[0], SortByCount(s[1..]))
  }

  function Min(a: nat, b: nat): nat
  {
    if a <= b then a else b
  }

  /** The first three pairs of the sorted entries. */
  function TopIssues(c: Counters): seq<Issue>
    requires WellFormed(c)
  {
    var sorted := SortByCount(Entries(c));
    sorted[..Min(TopCount, |sorted|)]
  }

  /** The summary `getAnalyticsSummary` computes from the history. */
  function Summarize(rs: seq<DiagnosisRecord>): AnalyticsSummary
  {
    var healthy := CountHealthy(rs);
    AnalyticsSummary(|rs|, healthy, |rs| - healthy, TopIssues(Tally(rs)))
  }

  /** One more entry of a diagnosis list bumps one counter. */
  lemma TallyDiagnosesStep(c: Counters, ds: seq<Diagnosis>, j: nat)
    requires WellFormed(c) && j < |ds|
    ensures TallyDiagnoses(c, ds[..j + 1]) == Bump(TallyDiagnoses(c, ds[..j]), ds[j].disease)
  {
    assert ds[..j + 1][..j] == ds[..j];
  }

  /** One more record of the history: the scan and name counts of the longer prefix. */
  lemma TallyStep(rs: seq<DiagnosisRecord>, i: nat)
    requires i < |rs|
    ensures Tally(rs[..i + 1]) == TallyRecord(Tally(rs[..i]), rs[i])
    ensures CountHealthy(rs[..i + 1]) == CountHealthy(rs[..i]) + (if IsHealthy(rs[i]) then 1 else 0)
  {
    assert rs[..i + 1][..i] == rs[..i];
  }

  // ---------------------------------------------------------------------
  // Scan counts

  /** The positions of the healthy records. */
  ghost function HealthyIndices(rs: seq<DiagnosisRecord>): set<nat>
  {
    set i: nat | i < |rs| && IsHealthy(rs[i])
  }

  /** The positions of the records with at least one diagnosis. */
  ghost function DiseasedIndices(rs: seq<DiagnosisRecord>): set<nat>
  {
    set i: nat | i < |rs| && !IsHealthy(rs[i])
  }

  lemma {:induction false} CountHealthyIsSize(rs: seq<DiagnosisRecord>)
    ensures CountHealthy(rs) == |HealthyIndices(rs)|
    ensures |rs| - CountHealthy(rs) == |DiseasedIndices(rs)|
  {
    if rs == [] {
      assert HealthyIndices(rs) == {};
      assert DiseasedIndices(rs) == {};
    } else {
      var init := rs[..|rs| - 1];
      var last: nat := |rs| - 1;
      CountHealthyIsSize(init);
      if IsHealthy(rs[last]) {
        assert HealthyIndices(rs) == HealthyIndices(init) + {last};
        assert DiseasedIndices(rs) == DiseasedIndices(init);
      } else {
        assert HealthyIndices(rs) == HealthyIndices(init);
        assert DiseasedIndices(rs) == DiseasedIndices(init) + {last};
      }
    }
  }

  /**
   * The three scan counts: the total is the length of the history, the
   * healthy count is the number of healthy records, the diseased count the
   * number of the others, and healthy plus diseased is the total.
   */
  lemma ScanCounts(rs: seq<DiagnosisRecord>)
    ensures var s := Summarize(rs);
      && s.totalScans == |rs|
      && s.healthyScans == |HealthyIndices(rs)|
      && s.diseasedScans == |DiseasedIndices(rs)|
      && 0 <= s.healthyScans <= s.totalScans
      && s.healthyScans + s.diseasedScans == s.totalScans
  {
    CountHealthyIsSize(rs);
  }

  // ---------------------------------------------------------------------
  // Counters

  lemma {:induction false} TallyDiagnosesCount(c: Counters, ds: seq<Diagnosis>, name: string)
    requires WellFormed(c)
    ensures Count(TallyDiagnoses(c, ds), name) == Count(c, name) + CountIn(ds, name)
  {
    if ds != [] {
      TallyDiagnosesCount(c, ds[..|ds| - 1], name);
    }
  }

  /** Each counter holds the number of entries with its name over the whole history. */
  lemma {:induction false} TallyCount(rs: seq<DiagnosisRecord>, name: string)
    ensures Count(Tally(rs), name) == Occurrences(rs, name)
  {
    if rs != [] {
      var init := rs[..|rs| - 1];
      var r := rs[|rs| - 1];
      TallyCount(init, name);
      if !IsHealthy(r) {
        TallyDiagnosesCount(Tally(init), r.diagnoses.value, name);
      }
    }
  }

  lemma {:induction false} CountInPositive(ds: seq<Diagnosis>, k: nat)
    requires k < |ds|
    ensures CountIn(ds, ds[k].disease) >= 1
  {
    if k < |ds| - 1 {
      CountInPositive(ds[..|ds| - 1], k);
    }
  }

  lemma {:induction false} OccurrencesAtLeast(rs: seq<DiagnosisRecord>, i: nat, name: string)
    requires i < |rs|
    ensures Occurrences(rs, name) >= CountIn(EntriesOf(rs[i].diagnoses), name)
  {
    if i < |rs| - 1 {
      OccurrencesAtLeast(rs[..|rs| - 1], i, name);
    }
  }

  lemma {:induction false} NoOccurrencesWhenAllHealthy(rs: seq<DiagnosisRecord>, name: string)
    requires forall i :: 0 <= i < |rs| ==> IsHealthy(rs[i])
    ensures Occurrences(rs, name) == 0
  {
    if rs != [] {
      NoOccurrencesWhenAllHealthy(rs[..|rs| - 1], name);
    }
  }

  /** A name has a counter exactly when some record lists it. */
  lemma CounterExistsIff(rs: seq<DiagnosisRecord>, name: string)
    ensures name in Tally(rs).order <==> Occurrences(rs, name) > 0
  {
    TallyCount(rs, name);
  }

  // ---------------------------------------------------------------------
  // Sorting and the top issues

  /** Sorting keeps names distinct. */
  lemma {:induction false} InsertDistinct(x: Issue, s: seq<Issue>)
    requires DistinctNames(s)
    requires forall i :: 0 <= i < |s| ==> s[i].name != x.name
    ensures DistinctNames(Insert(x, s))
  {
    if s != [] && x.count < s[0].count {
      var t := s[1..];
      InsertDistinct(x, t);
      var r := Insert(x, t);
      forall k | 0 <= k < |r|
        ensures r[k].name != s[0].name
      {
        assert r[k] in multiset(r);
        if r[k] != x {
          assert r[k] in multiset(t);
          var m :| 0 <= m < |t| && t[m] == r[k];
          assert s[m + 1] == r[k];
        }
      }
      var whole := [s[0]] + r;
      assert Insert(x, s) == whole;
      forall i, j | 0 <= i < j < |whole|
        ensures whole[i].name != whole[j].name
      {
        if i > 0 {
          assert whole[i] == r[i - 1] && whole[j] == r[j - 1];
        }
      }
    }
  }

  lemma {:induction false} SortDistinct(s: seq<Issue>)
    requires DistinctNames(s)
    ensures DistinctNames(SortByCount(s))
  {
    if s != [] {
      var t := s[1..];
      SortDistinct(t);
      var sorted := SortByCount(t);
      forall k | 0 <= k < |sorted|
        ensures sorted[k].name != s[0].name
      {
        assert sorted[k] in multiset(t);
        var m :| 0 <= m < |t| && t[m] == sorted[k];
        assert s[m + 1] == sorted[k];
      }
      InsertDistinct(s[0], sorted);
    }
  }

  /** The entries of well-formed counters name each key once, with its value. */
  lemma EntriesFacts(c: Counters)
    requires WellFormed(c)
    ensures DistinctNames(Entries(c))
    ensures forall x :: x in Entries(c) ==> x.name in c.counts && x.count == Count(c, x.name)
    ensures forall n :: n in c.counts ==> Issue(n, Count(c, n)) in Entries(c)
  {
    var e := Entries(c);
    forall n | n in c.counts
      ensures Issue(n, Count(c, n)) in e
    {
      var k :| 0 <= k < |c.order| && c.order[k] == n;
      assert e[k] == Issue(n, Count(c, n));
    }
  }

  /** The names an issue list mentions. */
  function NamesOf(s: seq<Issue>): set<string>
  {
    set x | x in s :: x.name
  }

  /** The top issues: at most three, sorted by count, no name twice. */
  lemma TopIssuesShape(c: Counters)
    requires WellFormed(c)
    ensures var ci := TopIssues(c);
      |ci| <= TopCount && SortedByCount(ci) && DistinctNames(ci)
  {
    EntriesFacts(c);
    SortDistinct(Entries(c));
  }

  /** Each top issue carries a key of the counters and that key's value. */
  lemma TopIssuesCounts(c: Counters)
    requires WellFormed(c)
    ensures forall x :: x in TopIssues(c) ==> x.name in c.counts && x.count == Count(c, x.name)
  {
    var e := Entries(c);
    var sorted := SortByCount(e);
    EntriesFacts(c);
    forall x | x in TopIssues(c)
      ensures x.name in c.counts && x.count == Count(c, x.name)
    {
      assert x in sorted;
      assert x in multiset(e);
    }
  }

  /** A key left out of the top issues comes after three keys whose values are not smaller. */
  lemma TopIssuesMaximal(c: Counters, n: string)
    requires WellFormed(c)
    requires n in c.counts && n !in NamesOf(TopIssues(c))
    ensures |TopIssues(c)| == TopCount && Count(c, n) <= TopIssues(c)[TopCount - 1].count
  {
    var e := Entries(c);
    var sorted := SortByCount(e);
    var ci := TopIssues(c);
    EntriesFacts(c);
    var x := Issue(n, Count(c, n));
    assert x in multiset(sorted);
    var j :| 0 <= j < |sorted| && sorted[j] == x;
  }

  /**
   * The common issues: at most three, in non-increasing order of count, no
   * name twice, each with the number of entries of that name in the whole
   * history; and any name seen but not listed comes after three listed
   * names, none of which was seen less often.
   */
  lemma CommonIssues(rs: seq<DiagnosisRecord>)
    ensures var ci := Summarize(rs).commonIssues;
      && |ci| <= TopCount
      && SortedByCount(ci)
      && DistinctNames(ci)
      && (forall x :: x in ci ==> x.count == Occurrences(rs, x.name) >= 1)
      && (forall n :: Occurrences(rs, n) > 0 && n !in NamesOf(ci) ==>
            |ci| == TopCount && Occurrences(rs, n) <= ci[TopCount - 1].count)
  {
    var c := Tally(rs);
    var ci := TopIssues(c);
    assert Summarize(rs).commonIssues == ci;
    TopIssuesShape(c);
    TopIssuesCounts(c);
    forall x | x in ci
      ensures x.count == Occurrences(rs, x.name) >= 1
    {
      TallyCount(rs, x.name);
    }
    forall n | Occurrences(rs, n) > 0 && n !in NamesOf(ci)
      ensures |ci| == TopCount && Occurrences(rs, n) <= ci[TopCount - 1].count
    {
      TallyCount(rs, n);
      TopIssuesMaximal(c, n);
    }
  }

  /** The history has a diseased record exactly when some disease name occurs in it. */
  lemma {:induction false} DiseasedIffSomeName(rs: seq<DiagnosisRecord>)
    ensures CountHealthy(rs) < |rs| <==> exists n :: Occurrences(rs, n) > 0
  {
    CountHealthyIsSize(rs);
    if CountHealthy(rs) < |rs| {
      assert DiseasedIndices(rs) != {};
      var i :| i in DiseasedIndices(rs);
      var ds := rs[i].diagnoses.value;
      CountInPositive(ds, 0);
      OccurrencesAtLeast(rs, i, ds[0].disease);
    } else {
      assert DiseasedIndices(rs) == {};
      forall n ensures Occurrences(rs, n) == 0 {
        forall i | 0 <= i < |rs| ensures IsHealthy(rs[i]) {
          assert i !in DiseasedIndices(rs);
        }
        NoOccurrencesWhenAllHealthy(rs, n);
      }
    }
  }

  /** The common issues are empty exactly when no scan was diseased. */
  lemma CommonIssuesEmptyIff(rs: seq<DiagnosisRecord>)
    ensures Summarize(rs).commonIssues == [] <==> Summarize(rs).diseasedScans == 0
  {
    var c := Tally(rs);
    var sorted := SortByCount(Entries(c));
    assert |sorted| == |c.order| by {
      assert |multiset(sorted)| == |multiset(Entries(c))|;
    }
    DiseasedIffSomeName(rs);
    if Summarize(rs).diseasedScans != 0 {
      var n :| Occurrences(rs, n) > 0;
      CounterExistsIff(rs, n);
    } else if c.order != [] {
      CounterExistsIff(rs, c.order[0]);
    }
  }

  /** One healthy scan and one scan finding "Blight" once. */
  lemma OneHealthyOneBlight(healthy: DiagnosisRecord, blighted: DiagnosisRecord)
    requires healthy.diagnoses == Some([])
    requires blighted.diagnoses == Some([Diagnosis("Blight", 0.9)])
    ensures Summarize([blighted, healthy]) == AnalyticsSummary(2, 1, 1, [Issue("Blight", 1)])
  {
    var rs := [blighted, healthy];
    var one := Counters(["Blight"], map["Blight" := 1]);
    assert Tally(rs) == one by {
      var ds := blighted.diagnoses.value;
      assert rs[..1] == [blighted] && [blighted][..0] == [] && ds[..0] == [];
      assert TallyDiagnoses(NoCounters, ds) == Bump(NoCounters, "Blight") == one;
      assert Tally([blighted]) == one;
    }
    assert CountHealthy(rs) == 1 by {
      assert rs[..1] == [blighted] && [blighted][..0] == [];
      assert CountHealthy([blighted]) == 0;
    }
    assert TopIssues(one) == [Issue("Blight", 1)] by {
      assert Entries(one) == [Issue("Blight", 1)];
      assert SortByCount([Issue("Blight", 1)]) == [Issue("Blight", 1)];
    }
  }
}
