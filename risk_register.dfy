/** The risk register page: the search/category/level filter, the three
    sort orders applied to the filtered copy, the score colour, the
    sort-key cycle and the "clear filters" reset. */
module RiskRegister {
  import opened Types
  import opened Seqs
  import opened Text
  import RiskMatrix

  /** A drop-down value: `'all'` or one key. */
  datatype Selection<T> = All | Only(value: T)

  /** The `sortBy` state: `'score'`, `'date'` or `'title'`. */
  datatype SortKey = ByScore | ByDate | ByTitle

  predicate Selected<T(==)>(sel: Selection<T>, v: T) {
    sel.All? || sel.value == v
  }

  /** The lowercased title or the lowercased description contains the
      lowercased query. */
  predicate MatchesSearch(r: Risk, query: string) {
    Contains(Lower(r.title), Lower(query)) || Contains(Lower(r.description), Lower(query))
  }

  /** The filter callback: search, category and level joined by AND. */
  predicate Keep(r: Risk, query: string, cat: Selection<RiskCategory>, lvl: Selection<RiskLevel>) {
    MatchesSearch(r, query) && Selected(cat, r.category) && Selected(lvl, r.level)
  }

  function KeepFn(query: string, cat: Selection<RiskCategory>, lvl: Selection<RiskLevel>): Risk -> bool {
    (r: Risk) => Keep(r, query, cat, lvl)
  }

  /** The `filter` stage of `filteredRisks`. */
  function FilterRisks(rs: seq<Risk>, query: string, cat: Selection<RiskCategory>, lvl: Selection<RiskLevel>): seq<Risk> {
    Filter(rs, KeepFn(query, cat, lvl))
  }

  /** A risk survives the filter iff all three conditions hold, and the
      survivors keep their relative order. */
  lemma FilterRisksExact(rs: seq<Risk>, query: string, cat: Selection<RiskCategory>, lvl: Selection<RiskLevel>)
    ensures forall x :: x in FilterRisks(rs, query, cat, lvl) <==> x in rs && Keep(x, query, cat, lvl)
    ensures IsSubseq(FilterRisks(rs, query, cat, lvl), rs)
  {
    var kept := FilterRisks(rs, query, cat, lvl);
    forall x ensures x in kept <==> x in rs && Keep(x, query, cat, lvl) {
      if x in rs && Keep(x, query, cat, lvl) {
        var k :| 0 <= k < |rs| && rs[k] == x;
        assert KeepFn(query, cat, lvl)(rs[k]);
      }
    }
    FilterIsSubseq(rs, KeepFn(query, cat, lvl));
  }

  /** An empty query with both drop-downs on `'all'` keeps every risk. */
  lemma ClearedKeepsAll(rs: seq<Risk>)
    ensures FilterRisks(rs, "", All, All) == rs
  {
    forall k | 0 <= k < |rs| ensures KeepFn("", All, All)(rs[k]) {
      assert Lower("") == "";
      ContainsEmpty(Lower(rs[k].title));
    }
    FilterKeepsAll(rs, KeepFn("", All, All));
  }

  function SearchFn(query: string): Risk -> bool {
    (r: Risk) => MatchesSearch(r, query)
  }

  function SelectionFn(cat: Selection<RiskCategory>, lvl: Selection<RiskLevel>): Risk -> bool {
    (r: Risk) => Selected(cat, r.category) && Selected(lvl, r.level)
  }

  /** The combined filter is the search filter followed by the drop-down
      filter: the conditions are independent of each other. */
  lemma FilterRisksStaged(rs: seq<Risk>, query: string, cat: Selection<RiskCategory>, lvl: Selection<RiskLevel>)
    ensures FilterRisks(rs, query, cat, lvl) == Filter(Filter(rs, SearchFn(query)), SelectionFn(cat, lvl))
  {
    FilterFilter(rs, SearchFn(query), SelectionFn(cat, lvl), KeepFn(query, cat, lvl));
  }

  /** `a` may precede `b` under the comparator of `sortBy`: the comparator
      returns a value that is not positive. Scores descend, update dates
      descend, titles ascend. */
  predicate Prec(a: Risk, b: Risk, key: SortKey) {
    match key
    case ByScore => Score(a) >= Score(b)
    case ByDate => a.updatedAt >= b.updatedAt
    case ByTitle => LexLe(a.title, b.title)
  }

  lemma PrecTotal(a: Risk, b: Risk, key: SortKey)
    ensures Prec(a, b, key) || Prec(b, a, key)
  {
    if key == ByTitle { LexLeTotal(a.title, b.title); }
  }

  lemma PrecTransitive(a: Risk, b: Risk, c: Risk, key: SortKey)
    requires Prec(a, b, key) && Prec(b, c, key)
    ensures Prec(a, c, key)
  {
    if key == ByTitle { LexLeTransitive(a.title, b.title, c.title); }
  }

  predicate SortedBy(s: seq<Risk>, key: SortKey) {
    forall i, j :: 0 <= i < j < |s| ==> Prec(s[i], s[j], key)
  }

  /** `Array.prototype.sort` with the page's comparator, on an array the
      caller owns: insertion sort by adjacent swaps. */
  method SortInPlace(a: array<Risk>, key: SortKey)
    modifies a
    ensures SortedBy(a[..], key)
    ensures multiset(a[..]) == multiset(old(a[..]))
  {
    var i := 1;
    while i < a.Length
      invariant a.Length == 0 || 1 <= i <= a.Length
      invariant forall k, m :: 0 <= k < m < i && m < a.Length ==> Prec(a[k], a[m], key)
      invariant multiset(a[..]) == multiset(old(a[..]))
    {
      var j := i;
      while j > 0 && !Prec(a[j - 1], a[j], key)
        invariant 0 <= j <= i
        invariant forall k, m :: 0 <= k < m <= i && m != j ==> Prec(a[k], a[m], key)
        invariant forall m :: j < m <= i ==> Prec(a[j], a[m], key)
        invariant multiset(a[..]) == multiset(old(a[..]))
      {
        PrecTotal(a[j - 1], a[j], key);
        a[j - 1], a[j] := a[j], a[j - 1];
        j := j - 1;
      }
      forall k | 0 <= k < j - 1
        ensures Prec(a[k], a[j], key)
      {
        PrecTransitive(a[k], a[j - 1], a[j], key);
      }
      i := i + 1;
    }
  }

  /** `filteredRisks`: the kept risks, copied into a fresh array and sorted
      there; the input sequence is a value and is never reordered. The
      result is a permutation of the filter's output, sorted by the key. */
  method FilteredRisks(rs: seq<Risk>, query: string, cat: Selection<RiskCategory>,
                       lvl: Selection<RiskLevel>, key: SortKey) returns (out: seq<Risk>)
    ensures multiset(out) == multiset(FilterRisks(rs, query, cat, lvl))
    ensures SortedBy(out, key)
    ensures |out| <= |rs|
    ensures forall x :: x in out <==> x in rs && Keep(x, query, cat, lvl)
  {
    var kept := FilterRisks(rs, query, cat, lvl);
    var a := new Risk[|kept|](k requires 0 <= k < |kept| => kept[k]);
    assert a[..] == kept;
    SortInPlace(a, key);
    out := a[..];
    assert |out| == |multiset(out)| == |multiset(kept)| == |kept|;
    FilterRisksExact(rs, query, cat, lvl);
    forall x ensures x in out <==> x in kept {
      assert x in out <==> x in multiset(out);
      assert x in kept <==> x in multiset(kept);
    }
  }

  /** The score text colour: the same four thresholds as the heat map. */
  function ScoreColor(score: int): RiskMatrix.CellColor {
    if score >= 15 then RiskMatrix.Red
    else if score >= 8 then RiskMatrix.Amber
    else if score >= 4 then RiskMatrix.Yellow
    else RiskMatrix.Emerald
  }

  /** The register's colour for a risk is the heat-map colour of its cell. */
  lemma ScoreColorMatchesMatrix(r: Risk)
    ensures ScoreColor(Score(r)) == RiskMatrix.GetCellColor(r.probability, r.impact)
  {
    RiskMatrix.BandThresholds(Score(r));
  }

  /** The sort button: score, then date, then title, then score again. */
  function NextSortKey(k: SortKey): SortKey {
    match k
    case ByScore => ByDate
    case ByDate => ByTitle
    case ByTitle => ByScore
  }

  /** Three presses bring the key back, and no fewer do. */
  lemma SortCycle(k: SortKey)
    ensures NextSortKey(NextSortKey(NextSortKey(k))) == k
    ensures NextSortKey(k) != k && NextSortKey(NextSortKey(k)) != k
  {
  }

  /** The page state: the search box, the two drop-downs and the sort key. */
  class RegisterView {
    var searchQuery: string
    var selectedCategory: Selection<RiskCategory>
    var selectedLevel: Selection<RiskLevel>
    var sortBy: SortKey

    constructor ()
      ensures searchQuery == "" && selectedCategory == All && selectedLevel == All
      ensures sortBy == ByScore
    {
      searchQuery := "";
      selectedCategory := All;
      selectedLevel := All;
      sortBy := ByScore;
    }

    method SetSearchQuery(q: string)
      modifies this
      ensures searchQuery == q
      ensures selectedCategory == old(selectedCategory) && selectedLevel == old(selectedLevel)
      ensures sortBy == old(sortBy)
    {
      searchQuery := q;
    }

    method SetCategory(c: Selection<RiskCategory>)
      modifies this
      ensures selectedCategory == c
      ensures searchQuery == old(searchQuery) && selectedLevel == old(selectedLevel)
      ensures sortBy == old(sortBy)
    {
      selectedCategory := c;
    }

    method SetLevel(l: Selection<RiskLevel>)
      modifies this
      ensures selectedLevel == l
      ensures searchQuery == old(searchQuery) && selectedCategory == old(selectedCategory)
      ensures sortBy == old(sortBy)
    {
      selectedLevel := l;
    }

    /** The "Sort by" button advances the key and touches nothing else. */
    method CycleSort()
      modifies this
      ensures sortBy == NextSortKey(old(sortBy))
      ensures searchQuery == old(searchQuery)
      ensures selectedCategory == old(selectedCategory) && selectedLevel == old(selectedLevel)
    {
      sortBy := if sortBy == ByScore then ByDate else if sortBy == ByDate then ByTitle else ByScore;
    }

    /** "Clear filters": empty query, both drop-downs on `'all'`; the sort
        key is kept. Afterwards the table shows every risk. */
    method ClearFilters(rs: seq<Risk>)
      modifies this
      ensures searchQuery == "" && selectedCategory == All && selectedLevel == All
      ensures sortBy == old(sortBy)
      ensures FilterRisks(rs, searchQuery, selectedCategory, selectedLevel) == rs
    {
      searchQuery := "";
      selectedCategory := All;
      selectedLevel := All;
      ClearedKeepsAll(rs);
    }

    /** The rows the table renders for the current state. */
    method Rows(rs: seq<Risk>) returns (out: seq<Risk>)
      ensures multiset(out) == multiset(FilterRisks(rs, searchQuery, selectedCategory, selectedLevel))
      ensures SortedBy(out, sortBy)
    {
      out := FilteredRisks(rs, searchQuery, selectedCategory, selectedLevel, sortBy);
    }
  }
}
