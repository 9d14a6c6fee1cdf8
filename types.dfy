/** The risk register's data model: levels, categories, statuses, the
    risk record and the aggregate statistics record. */
module Types {
  import opened Wrappers

  datatype RiskLevel = Low | Medium | High | Critical

  datatype RiskCategory =
    | Operational | Financial | Strategic | Compliance
    | Technology | Reputational | Environmental | HumanCapital

  datatype RiskStatus = Identified | Assessing | Mitigating | Resolved | Accepted

  /** One risk record. `level` is stored, not derived: nothing ties it to
      the score. `probability` and `impact` are plain numbers; the 1..5
      range is the predicate `InScale`. Dates are `YYYYMMDD` integers so
      that numeric order is calendar order. */
  datatype Risk = Risk(
    id: string,
    title: string,
    description: string,
    category: RiskCategory,
    level: RiskLevel,
    probability: int,
    impact: int,
    status: RiskStatus,
    owner: Option<string>,
    dueDate: Option<string>,
    createdAt: int,
    updatedAt: int)

  /** Totals by level, category and status. Each grouping is a record with
      one count for every value of its enumeration, so it is a total
      function here: no key can be missing. */
  datatype RiskStats = RiskStats(
    total: nat,
    byLevel: RiskLevel -> nat,
    byCategory: RiskCategory -> nat,
    byStatus: RiskStatus -> nat)

  /** The key order of each record, as the source lists the keys. */
  const AllLevels: seq<RiskLevel> := [Low, Medium, High, Critical]
  const AllCategories: seq<RiskCategory> :=
    [Operational, Financial, Strategic, Compliance, Technology, Reputational, Environmental, HumanCapital]
  const AllStatuses: seq<RiskStatus> := [Identified, Assessing, Mitigating, Resolved, Accepted]

  /** The 1..5 scale of the heat map. */
  predicate InScale(n: int) { 1 <= n <= 5 }

  /** A risk's score is probability times impact. */
  function Score(r: Risk): int {
    r.probability * r.impact
  }

  /** On the 1..5 scale a score lies in 1..25. */
  lemma ScoreRange(r: Risk)
    requires InScale(r.probability) && InScale(r.impact)
    ensures 1 <= Score(r) <= 25
  {
  }

  /** The key lists enumerate each type exactly once. */
  lemma Enumerations()
    ensures |AllLevels| == 4 && (forall l :: l in AllLevels)
    ensures forall i, j :: 0 <= i < j < |AllLevels| ==> AllLevels[i] != AllLevels[j]
    ensures |AllCategories| == 8 && (forall c :: c in AllCategories)
    ensures forall i, j :: 0 <= i < j < |AllCategories| ==> AllCategories[i] != AllCategories[j]
    ensures |AllStatuses| == 5 && (forall s :: s in AllStatuses)
    ensures forall i, j :: 0 <= i < j < |AllStatuses| ==> AllStatuses[i] != AllStatuses[j]
  {
    forall l: RiskLevel ensures l in AllLevels {
      match l
      case Low => assert AllLevels[0] == l;
      case Medium => assert AllLevels[1] == l;
      case High => assert AllLevels[2] == l;
      case Critical => assert AllLevels[3] == l;
    }
    forall c: RiskCategory ensures c in AllCategories {
      match c
      case Operational => assert AllCategories[0] == c;
      case Financial => assert AllCategories[1] == c;
      case Strategic => assert AllCategories[2] == c;
      case Compliance => assert AllCategories[3] == c;
      case Technology => assert AllCategories[4] == c;
      case Reputational => assert AllCategories[5] == c;
      case Environmental => assert AllCategories[6] == c;
      case HumanCapital => assert AllCategories[7] == c;
    }
    forall s: RiskStatus ensures s in AllStatuses {
      match s
      case Identified => assert AllStatuses[0] == s;
      case Assessing => assert AllStatuses[1] == s;
      case Mitigating => assert AllStatuses[2] == s;
      case Resolved => assert AllStatuses[3] == s;
      case Accepted => assert AllStatuses[4] == s;
    }
  }
}
