/** The dashboard: the active-risk list and its top five, the headline
    tiles computed from the statistics, and the category panel. */
module Dashboard {
  import opened Types
  import opened Seqs
  import opened SampleData

  /** Neither resolved nor accepted. */
  predicate IsActive(r: Risk) {
    r.status != Resolved && r.status != Accepted
  }

  /** `activeRisks`. */
  function ActiveRisks(rs: seq<Risk>): seq<Risk> {
    Filter(rs, IsActive)
  }

  /** The active list holds exactly the active risks, in input order. */
  lemma ActiveRisksExact(rs: seq<Risk>)
    ensures forall x :: x in ActiveRisks(rs) <==> x in rs && x.status != Resolved && x.status != Accepted
    ensures IsSubseq(ActiveRisks(rs), rs)
  {
    forall x | x in rs && IsActive(x) ensures x in ActiveRisks(rs) {
      var k :| 0 <= k < |rs| && rs[k] == x;
    }
    FilterIsSubseq(rs, IsActive);
  }

  /** Active risks are what the resolved and accepted counts leave over. */
  lemma {:induction false} ActiveCount(rs: seq<Risk>)
    ensures |ActiveRisks(rs)| + StatsOf(rs).byStatus(Resolved) + StatsOf(rs).byStatus(Accepted) == |rs|
  {
    var closed := [Resolved, Accepted];
    CountsPartition(rs, StatusOf, closed);
    assert closed[1..] == [Accepted] && closed[1..][1..] == [];
    assert SumCounts(rs, StatusOf, closed[1..]) == CountKey(rs, StatusOf, Accepted);
    forall x ensures KeyIn(StatusOf, closed)(x) == !IsActive(x) {
      assert KeyIn(StatusOf, closed)(x) == (StatusOf(x) in closed);
    }
    FilterComplement(rs, IsActive, KeyIn(StatusOf, closed));
  }

  /** `activeRisks.slice(0, 5)`: the first five active risks, or all of
      them when there are fewer. */
  function TopActive(rs: seq<Risk>): (top: seq<Risk>)
    ensures |top| <= 5 && |top| <= |ActiveRisks(rs)|
    ensures |top| == |ActiveRisks(rs)| || |top| == 5
    ensures forall k :: 0 <= k < |top| ==> top[k] == ActiveRisks(rs)[k] && IsActive(top[k])
  {
    var active := ActiveRisks(rs);
    if |active| <= 5 then active else active[..5]
  }

  /** The "High Priority" tile: high plus critical. */
  function HighPriority(st: RiskStats): nat {
    st.byLevel(High) + st.byLevel(Critical)
  }

  /** The tile counts exactly the risks stored as high or critical. */
  lemma {:induction false} HighPriorityCount(rs: seq<Risk>)
    ensures HighPriority(StatsOf(rs)) == |Filter(rs, KeyIn(LevelOf, [High, Critical]))|
  {
    var ks := [High, Critical];
    CountsPartition(rs, LevelOf, ks);
    assert ks[1..] == [Critical] && ks[1..][1..] == [];
    assert SumCounts(rs, LevelOf, ks[1..]) == CountKey(rs, LevelOf, Critical);
  }

  /** The "Being Mitigated" tile. */
  function BeingMitigated(st: RiskStats): nat {
    st.byStatus(Mitigating)
  }

  /** `Object.entries(riskStats.byCategory)`: one pair per category, in
      the record's key order. */
  function Entries(st: RiskStats): (es: seq<(RiskCategory, nat)>)
    ensures |es| == |AllCategories|
    ensures forall k :: 0 <= k < |es| ==> es[k] == (AllCategories[k], st.byCategory(AllCategories[k]))
  {
    seq(|AllCategories|, k requires 0 <= k < |AllCategories| => (AllCategories[k], st.byCategory(AllCategories[k])))
  }

  predicate Positive(e: (RiskCategory, nat)) { e.1 > 0 }

  predicate SortedDesc(es: seq<(RiskCategory, nat)>) {
    forall i, j :: 0 <= i < j < |es| ==> es[i].1 >= es[j].1
  }

  /** Places `e` before the first entry whose count is not larger. */
  function Insert(e: (RiskCategory, nat), sorted: seq<(RiskCategory, nat)>): (r: seq<(RiskCategory, nat)>)
    requires SortedDesc(sorted)
    ensures |r| == |sorted| + 1
    ensures r[0] == e || (sorted != [] && r[0] == sorted[0])
    ensures SortedDesc(r)
    ensures multiset(r) == multiset(sorted) + multiset{e}
  {
    if sorted == [] || e.1 >= sorted[0].1 then [e] + sorted
    else
      var rest := Insert(e, sorted[1..]);
      assert sorted == [sorted[0]] + sorted[1..];
      ConsSorted(sorted[0], rest);
      [sorted[0]] + rest
  }

  /** A sorted list stays sorted under a head that is not smaller. */
  lemma ConsSorted(x: (RiskCategory, nat), s: seq<(RiskCategory, nat)>)
    requires SortedDesc(s) && (s == [] || x.1 >= s[0].1)
    ensures SortedDesc([x] + s)
  {
    var r := [x] + s;
    forall i, j | 0 <= i < j < |r| ensures r[i].1 >= r[j].1 {
      if i == 0 && j > 1 { assert r[j] == s[j - 1] && s[0].1 >= s[j - 1].1; }
    }
  }

  /** The entries with count `n`. */
  function CountIs(n: nat): ((RiskCategory, nat)) -> bool {
    (e: (RiskCategory, nat)) => e.1 == n
  }

  /** Among the entries of one count, `Insert` puts the new entry first:
      it goes before every entry whose count is not larger. */
  lemma {:induction false} InsertStable(e: (RiskCategory, nat), sorted: seq<(RiskCategory, nat)>, n: nat)
    requires SortedDesc(sorted)
    ensures Filter(Insert(e, sorted), CountIs(n))
      == if e.1 == n then [e] + Filter(sorted, CountIs(n)) else Filter(sorted, CountIs(n))
  {
    if sorted == [] || e.1 >= sorted[0].1 {
      assert Insert(e, sorted) == [e] + sorted;
      assert ([e] + sorted)[1..] == sorted;
    } else {
      var rest := Insert(e, sorted[1..]);
      assert Insert(e, sorted) == [sorted[0]] + rest;
      assert ([sorted[0]] + rest)[1..] == rest;
      InsertStable(e, sorted[1..], n);
    }
  }

  /** `.sort(([, a], [, b]) => b - a)`: a stable sort by descending count.
      The result is in count order, holds the same entries, and for every
      count keeps the entries of that count in their input order. */
  function SortByCount(es: seq<(RiskCategory, nat)>): (r: seq<(RiskCategory, nat)>)
    ensures SortedDesc(r)
    ensures multiset(r) == multiset(es)
    ensures forall n :: Filter(r, CountIs(n)) == Filter(es, CountIs(n))
  {
    if es == [] then []
    else
      assert es == [es[0]] + es[1..];
      var rest := SortByCount(es[1..]);
      assert forall n :: Filter(Insert(es[0], rest), CountIs(n)) == Filter(es, CountIs(n)) by {
        forall n ensures Filter(Insert(es[0], rest), CountIs(n)) == Filter(es, CountIs(n)) {
          InsertStable(es[0], rest, n);
        }
      }
      Insert(es[0], rest)
  }

  /** The category panel: the categories with a positive count, by count. */
  function CategoryPanel(st: RiskStats): seq<(RiskCategory, nat)> {
    SortByCount(Filter(Entries(st), Positive))
  }

  /** The pairs of the filtered entries are the categories with a
      positive count, each with its count. */
  lemma PositiveEntries(st: RiskStats, c: RiskCategory, n: nat)
    ensures (c, n) in Filter(Entries(st), Positive) <==> n == st.byCategory(c) && n > 0
  {
    var es := Entries(st);
    if n == st.byCategory(c) && n > 0 {
      Enumerations();
      assert c in AllCategories;
      var k :| 0 <= k < |AllCategories| && AllCategories[k] == c;
      assert es[k] == (c, n);
    }
  }

  /** Each category appears in the panel, with its count, iff its count
      is positive; the panel is in non-increasing count order. */
  lemma CategoryPanelSpec(st: RiskStats)
    ensures SortedDesc(CategoryPanel(st))
    ensures forall c, n :: (c, n) in CategoryPanel(st) <==> n == st.byCategory(c) && n > 0
  {
    var kept := Filter(Entries(st), Positive);
    var panel := CategoryPanel(st);
    assert multiset(panel) == multiset(kept);
    forall c, n ensures (c, n) in panel <==> n == st.byCategory(c) && n > 0 {
      assert (c, n) in panel <==> (c, n) in multiset(panel);
      assert (c, n) in kept <==> (c, n) in multiset(kept);
      PositiveEntries(st, c, n);
    }
  }

  /** Categories with equal counts appear in the panel in the record's
      key order: for every positive count, the panel's entries of that
      count are the record's entries of that count, in key order. */
  lemma CategoryPanelStable(st: RiskStats, n: nat)
    requires n > 0
    ensures Filter(CategoryPanel(st), CountIs(n)) == Filter(Entries(st), CountIs(n))
  {
    var es := Entries(st);
    var both := (e: (RiskCategory, nat)) => Positive(e) && CountIs(n)(e);
    FilterFilter(es, Positive, CountIs(n), both);
    FilterExt(es, both, CountIs(n));
  }

  /** No category is listed twice. */
  lemma CategoryPanelOnce(st: RiskStats, c: RiskCategory, n: nat)
    ensures multiset(CategoryPanel(st))[(c, n)] <= 1
  {
    var es := Entries(st);
    FilterMultiset(es, Positive);
    EntriesOnce(st, c, n);
  }

  /** Each pair occurs at most once among the entries. */
  lemma EntriesOnce(st: RiskStats, c: RiskCategory, n: nat)
    ensures multiset(Entries(st))[(c, n)] <= 1
  {
    var es := Entries(st);
    assert es == [es[0]] + [es[1]] + [es[2]] + [es[3]] + [es[4]] + [es[5]] + [es[6]] + [es[7]];
    assert multiset(es)[(c, n)] == multiset{es[0], es[1], es[2], es[3], es[4], es[5], es[6], es[7]}[(c, n)];
  }

  /** With all counts equal the sort keeps the input order. */
  lemma {:induction false} SortByCountTies(es: seq<(RiskCategory, nat)>, n: nat)
    requires forall k :: 0 <= k < |es| ==> es[k].1 == n
    ensures SortByCount(es) == es
  {
    if es != [] {
      SortByCountTies(es[1..], n);
      assert es == [es[0]] + es[1..];
    }
  }

  /** On the fixture: 3 high priority (two high, one critical) and 3
      being mitigated. */
  lemma FixtureTiles()
    ensures HighPriority(Stats) == 3 && BeingMitigated(Stats) == 3
  {
    FixtureLevelCounts();
    FixtureStatusCounts();
  }

  /** On the fixture 7 risks are active: only record 5 is accepted. */
  lemma FixtureActive()
    ensures |ActiveRisks(SampleRisks)| == 7
  {
    FixtureLevelCounts();
    FixtureStatusCounts();
    ActiveCount(SampleRisks);
  }

  /** When every category counts one risk, the panel is all eight
      entries in key order: ties keep their order. */
  lemma UniformPanel(st: RiskStats)
    requires forall c :: st.byCategory(c) == 1
    ensures CategoryPanel(st) == Entries(st)
  {
    var es := Entries(st);
    EntriesUniform(st);
    FilterKeepsAll(es, Positive);
    SortByCountTies(es, 1);
  }

  lemma EntriesUniform(st: RiskStats)
    requires forall c :: st.byCategory(c) == 1
    ensures forall k :: 0 <= k < |Entries(st)| ==> Entries(st)[k].1 == 1 && Positive(Entries(st)[k])
  {
  }

  /** On the fixture the panel lists every category entry, in the
      record's key order, each with its count of one. */
  lemma FixturePanel()
    ensures CategoryPanel(Stats) == Entries(Stats)
    ensures forall c :: Stats.byCategory(c) == 1
  {
    FixtureCategoryCounts();
    UniformPanel(Stats);
  }
}
