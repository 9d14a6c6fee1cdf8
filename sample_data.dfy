/** The eight-record fixture, the statistics aggregated from it and the
    heat map's projection of it. */
module SampleData {
  import opened Wrappers
  import opened Types
  import opened Seqs
  import RiskMatrix

  const Record1: Risk :=
    Risk("1", "Supply Chain Disruption",
      "Potential delays or interruptions in key supplier deliveries affecting production timelines and customer commitments.",
      Operational, High, 4, 5, Mitigating, Some("Sarah Chen"), Some("Dec 20, 2025"), 20251101, 20251215)
  const Record2: Risk :=
    Risk("2", "Cybersecurity Breach",
      "Risk of unauthorized access to sensitive customer data and proprietary business information through system vulnerabilities.",
      Technology, Critical, 3, 5, Mitigating, Some("Mike Johnson"), Some("Dec 18, 2025"), 20251015, 20251214)
  const Record3: Risk :=
    Risk("3", "Regulatory Compliance Gap",
      "Potential non-compliance with new industry regulations taking effect Q1 next year requiring updated processes.",
      Compliance, Medium, 3, 4, Assessing, Some("Lisa Wang"), Some("Jan 15, 2026"), 20251120, 20251210)
  const Record4: Risk :=
    Risk("4", "Key Employee Departure",
      "Risk of losing critical technical knowledge if senior engineers leave without proper knowledge transfer.",
      HumanCapital, Medium, 3, 3, Identified, Some("HR Team"), Some("Feb 1, 2026"), 20251201, 20251212)
  const Record5: Risk :=
    Risk("5", "Currency Exchange Volatility",
      "Exposure to foreign exchange fluctuations affecting international revenue and supplier payments.",
      Financial, Low, 2, 3, Accepted, Some("Finance Team"), None, 20250915, 20251130)
  const Record6: Risk :=
    Risk("6", "Market Share Erosion",
      "Competitive pressure from new market entrants offering similar services at lower price points.",
      Strategic, High, 4, 4, Assessing, Some("Strategy Team"), Some("Jan 30, 2026"), 20251110, 20251208)
  const Record7: Risk :=
    Risk("7", "Environmental Compliance",
      "New sustainability requirements may require significant operational changes and investments.",
      Environmental, Low, 2, 2, Identified, Some("Operations"), None, 20251205, 20251205)
  const Record8: Risk :=
    Risk("8", "Reputation Risk - Social Media",
      "Potential negative publicity from customer complaints or incidents going viral on social platforms.",
      Reputational, Medium, 3, 4, Mitigating, Some("Marketing"), Some("Dec 25, 2025"), 20251125, 20251213)

  const SampleRisks: seq<Risk> :=
    [Record1, Record2, Record3, Record4, Record5, Record6, Record7, Record8]

  function LevelOf(r: Risk): RiskLevel { r.level }
  function CategoryOf(r: Risk): RiskCategory { r.category }
  function StatusOf(r: Risk): RiskStatus { r.status }

  /** `riskStats`: the total and, for every key, the number of risks
      whose stored level, category or status is that key. */
  function StatsOf(risks: seq<Risk>): RiskStats {
    RiskStats(
      |risks|,
      (l: RiskLevel) => CountKey(risks, LevelOf, l),
      (c: RiskCategory) => CountKey(risks, CategoryOf, c),
      (s: RiskStatus) => CountKey(risks, StatusOf, s))
  }

  const Stats: RiskStats := StatsOf(SampleRisks)

  /** The level counts add up to the total. */
  lemma LevelCountsSum(risks: seq<Risk>)
    ensures var st := StatsOf(risks);
      st.byLevel(Low) + st.byLevel(Medium) + st.byLevel(High) + st.byLevel(Critical) == st.total
  {
    Enumerations();
    CountsCoverAll(risks, LevelOf, AllLevels);
    var ks := AllLevels;
    assert ks[1..] == [Medium, High, Critical] && ks[1..][1..] == [High, Critical];
    assert ks[1..][1..][1..] == [Critical] && ks[1..][1..][1..][1..] == [];
    assert ks[2..] == [High, Critical] && ks[3..] == [Critical] && ks[4..] == [];
    assert SumCounts(risks, LevelOf, ks[3..]) == CountKey(risks, LevelOf, Critical);
    assert SumCounts(risks, LevelOf, ks[1..]) == CountKey(risks, LevelOf, Medium)
      + CountKey(risks, LevelOf, High) + SumCounts(risks, LevelOf, ks[3..]);
  }

  /** The category counts add up to the total. */
  lemma CategoryCountsSum(risks: seq<Risk>)
    ensures var st := StatsOf(risks);
      st.byCategory(Operational) + st.byCategory(Financial) + st.byCategory(Strategic)
      + st.byCategory(Compliance) + st.byCategory(Technology) + st.byCategory(Reputational)
      + st.byCategory(Environmental) + st.byCategory(HumanCapital) == st.total
  {
    Enumerations();
    CountsCoverAll(risks, CategoryOf, AllCategories);
    var ks := AllCategories;
    assert ks[1..] == [Financial, Strategic, Compliance, Technology, Reputational, Environmental, HumanCapital];
    assert ks[2..] == [Strategic, Compliance, Technology, Reputational, Environmental, HumanCapital];
    assert ks[3..] == [Compliance, Technology, Reputational, Environmental, HumanCapital];
    assert ks[4..] == [Technology, Reputational, Environmental, HumanCapital];
    assert ks[5..] == [Reputational, Environmental, HumanCapital];
    assert ks[6..] == [Environmental, HumanCapital];
    assert ks[7..] == [HumanCapital] && ks[8..] == [];
    assert SumCounts(risks, CategoryOf, ks[7..]) == CountKey(risks, CategoryOf, HumanCapital);
    assert SumCounts(risks, CategoryOf, ks[5..]) == CountKey(risks, CategoryOf, Reputational)
      + CountKey(risks, CategoryOf, Environmental) + CountKey(risks, CategoryOf, HumanCapital);
    assert SumCounts(risks, CategoryOf, ks[3..]) == CountKey(risks, CategoryOf, Compliance)
      + CountKey(risks, CategoryOf, Technology) + SumCounts(risks, CategoryOf, ks[5..]);
    assert SumCounts(risks, CategoryOf, ks[1..]) == CountKey(risks, CategoryOf, Financial)
      + CountKey(risks, CategoryOf, Strategic) + SumCounts(risks, CategoryOf, ks[3..]);
  }

  /** The status counts add up to the total. */
  lemma StatusCountsSum(risks: seq<Risk>)
    ensures var st := StatsOf(risks);
      st.byStatus(Identified) + st.byStatus(Assessing) + st.byStatus(Mitigating)
      + st.byStatus(Resolved) + st.byStatus(Accepted) == st.total
  {
    Enumerations();
    CountsCoverAll(risks, StatusOf, AllStatuses);
    var ks := AllStatuses;
    assert ks[1..] == [Assessing, Mitigating, Resolved, Accepted] && ks[2..] == [Mitigating, Resolved, Accepted];
    assert ks[3..] == [Resolved, Accepted] && ks[4..] == [Accepted] && ks[5..] == [];
    assert SumCounts(risks, StatusOf, ks[4..]) == CountKey(risks, StatusOf, Accepted);
    assert SumCounts(risks, StatusOf, ks[3..]) == CountKey(risks, StatusOf, Resolved)
      + SumCounts(risks, StatusOf, ks[4..]);
    assert SumCounts(risks, StatusOf, ks[1..]) == CountKey(risks, StatusOf, Assessing)
      + CountKey(risks, StatusOf, Mitigating) + SumCounts(risks, StatusOf, ks[3..]);
  }

  /** `riskMatrixData`: each risk's id, title, probability and impact. */
  function ToPoint(r: Risk): RiskMatrix.RiskPoint {
    RiskMatrix.RiskPoint(r.id, r.title, r.probability, r.impact)
  }

  function MatrixData(risks: seq<Risk>): (points: seq<RiskMatrix.RiskPoint>)
    ensures |points| == |risks|
    ensures forall k :: 0 <= k < |risks| ==>
      && points[k].id == risks[k].id && points[k].title == risks[k].title
      && points[k].probability == risks[k].probability && points[k].impact == risks[k].impact
  {
    seq(|risks|, k requires 0 <= k < |risks| => ToPoint(risks[k]))
  }

  /** The fixture's stored levels, in record order. */
  lemma FixtureLevels()
    ensures Project(SampleRisks, LevelOf) == [High, Critical, Medium, Medium, Low, High, Low, Medium]
  {
  }

  /** Risks whose levels read, in order, as the fixture's do count low
      2, medium 3, high 2, critical 1. */
  lemma LevelCountsOfOrder(risks: seq<Risk>)
    requires Project(risks, LevelOf) == [High, Critical, Medium, Medium, Low, High, Low, Medium]
    ensures StatsOf(risks).total == 8
    ensures StatsOf(risks).byLevel(Low) == 2 && StatsOf(risks).byLevel(Medium) == 3
    ensures StatsOf(risks).byLevel(High) == 2 && StatsOf(risks).byLevel(Critical) == 1
  {
    CountKeyMultiplicity(risks, LevelOf, Low);
    CountKeyMultiplicity(risks, LevelOf, Medium);
    CountKeyMultiplicity(risks, LevelOf, High);
    CountKeyMultiplicity(risks, LevelOf, Critical);
  }

  /** The fixture's level counts: low 2, medium 3, high 2, critical 1,
      out of 8 risks. */
  lemma FixtureLevelCounts()
    ensures Stats.total == 8
    ensures Stats.byLevel(Low) == 2 && Stats.byLevel(Medium) == 3
    ensures Stats.byLevel(High) == 2 && Stats.byLevel(Critical) == 1
  {
    FixtureLevels();
    LevelCountsOfOrder(SampleRisks);
  }

  /** The fixture's stored statuses and categories, in record order. */
  lemma FixtureStatusesAndCategories()
    ensures Project(SampleRisks, StatusOf)
      == [Mitigating, Mitigating, Assessing, Identified, Accepted, Assessing, Identified, Mitigating]
    ensures Project(SampleRisks, CategoryOf)
      == [Operational, Technology, Compliance, HumanCapital, Financial, Strategic, Environmental, Reputational]
  {
  }

  /** Risks whose statuses read, in order, as the fixture's do count
      identified 2, assessing 2 and mitigating 3 ... */
  lemma OpenCountsOfOrder(risks: seq<Risk>)
    requires Project(risks, StatusOf)
      == [Mitigating, Mitigating, Assessing, Identified, Accepted, Assessing, Identified, Mitigating]
    ensures StatsOf(risks).byStatus(Identified) == 2 && StatsOf(risks).byStatus(Assessing) == 2
    ensures StatsOf(risks).byStatus(Mitigating) == 3
  {
    CountKeyMultiplicity(risks, StatusOf, Identified);
    CountKeyMultiplicity(risks, StatusOf, Assessing);
    CountKeyMultiplicity(risks, StatusOf, Mitigating);
  }

  /** ... and resolved 0, accepted 1. */
  lemma ClosedCountsOfOrder(risks: seq<Risk>)
    requires Project(risks, StatusOf)
      == [Mitigating, Mitigating, Assessing, Identified, Accepted, Assessing, Identified, Mitigating]
    ensures StatsOf(risks).byStatus(Resolved) == 0 && StatsOf(risks).byStatus(Accepted) == 1
  {
    CountKeyMultiplicity(risks, StatusOf, Resolved);
    CountKeyMultiplicity(risks, StatusOf, Accepted);
  }

  /** The fixture's status counts: identified 2, assessing 2, mitigating
      3, resolved 0, accepted 1. */
  lemma FixtureStatusCounts()
    ensures Stats.byStatus(Identified) == 2 && Stats.byStatus(Assessing) == 2
    ensures Stats.byStatus(Mitigating) == 3 && Stats.byStatus(Resolved) == 0
    ensures Stats.byStatus(Accepted) == 1
  {
    FixtureStatusesAndCategories();
    OpenCountsOfOrder(SampleRisks);
    ClosedCountsOfOrder(SampleRisks);
  }

  /** When the risks' categories are all eight, none repeated, every
      category counts exactly one risk. */
  lemma OnePerCategory(risks: seq<Risk>)
    requires Distinct(Project(risks, CategoryOf))
    requires forall c :: c in Project(risks, CategoryOf)
    ensures forall c :: StatsOf(risks).byCategory(c) == 1
  {
    forall c ensures StatsOf(risks).byCategory(c) == 1 {
      CountKeyMultiplicity(risks, CategoryOf, c);
      MultisetOfDistinct(Project(risks, CategoryOf), c);
    }
  }

  /** The fixture's categories in record order: each of the eight once. */
  lemma FixtureCategoryList()
    ensures var ps := [Operational, Technology, Compliance, HumanCapital, Financial, Strategic, Environmental, Reputational];
      Distinct(ps) && forall c :: c in ps
  {
    var ps := [Operational, Technology, Compliance, HumanCapital, Financial, Strategic, Environmental, Reputational];
    forall c ensures c in ps {
      match c
      case Operational => assert ps[0] == c;
      case Financial => assert ps[4] == c;
      case Strategic => assert ps[5] == c;
      case Compliance => assert ps[2] == c;
      case Technology => assert ps[1] == c;
      case Reputational => assert ps[7] == c;
      case Environmental => assert ps[6] == c;
      case HumanCapital => assert ps[3] == c;
    }
  }

  /** Every category of the fixture holds exactly one risk. */
  lemma FixtureCategoryCounts()
    ensures forall c :: Stats.byCategory(c) == 1
  {
    FixtureStatusesAndCategories();
    FixtureCategoryList();
    OnePerCategory(SampleRisks);
  }

  /** The counts use the stored level, which the fixture does not derive
      from the score: records 1 and 6 score in the critical band but are
      stored, and counted, as high. */
  lemma StoredLevelIsNotBand()
    ensures SampleRisks[0].level == High && RiskMatrix.Band(Score(SampleRisks[0])) == Critical
    ensures SampleRisks[5].level == High && RiskMatrix.Band(Score(SampleRisks[5])) == Critical
  {
  }
}
