/** The alerts page: the all/unread view, the unread counter, marking one
    or all alerts as read, dismissing, and the per-type tiles. */
module Alerts {
  import opened Wrappers
  import opened Types
  import opened Seqs

  datatype AlertType = Overdue | Escalation | NewRisk | StatusChange | Reminder

  datatype Alert = Alert(
    id: string,
    kind: AlertType,
    title: string,
    description: string,
    riskTitle: Option<string>,
    riskLevel: Option<RiskLevel>,
    timestamp: string,
    read: bool)

  /** The `filter` state: `'all'` or `'unread'`. */
  datatype AlertFilter = AllAlerts | UnreadOnly

  const Alert1: Alert :=
    Alert("1", Overdue, "Mitigation Action Overdue",
      "The mitigation action for \"Cybersecurity Breach\" is 2 days overdue.",
      Some("Cybersecurity Breach"), Some(Critical), "2 hours ago", false)
  const Alert2: Alert :=
    Alert("2", Escalation, "Risk Level Escalated",
      "Supply Chain Disruption has been automatically escalated due to increased probability.",
      Some("Supply Chain Disruption"), Some(High), "5 hours ago", false)
  const Alert3: Alert :=
    Alert("3", NewRisk, "New Risk Identified",
      "A new technology risk has been added to the register by Mike Johnson.",
      Some("API Security Vulnerability"), Some(High), "1 day ago", false)
  const Alert4: Alert :=
    Alert("4", Reminder, "Review Reminder",
      "Monthly risk review is due in 3 days. 4 risks require assessment update.",
      None, None, "1 day ago", true)
  const Alert5: Alert :=
    Alert("5", StatusChange, "Risk Status Updated",
      "Currency Exchange Volatility has been marked as \"Accepted\" by Finance Team.",
      Some("Currency Exchange Volatility"), Some(Low), "2 days ago", true)

  const SampleAlerts: seq<Alert> := [Alert1, Alert2, Alert3, Alert4, Alert5]

  function ReadOf(a: Alert): bool { a.read }
  function KindOf(a: Alert): AlertType { a.kind }
  function IdOf(a: Alert): string { a.id }

  predicate IsUnread(a: Alert) { !a.read }

  function ViewFn(f: AlertFilter): Alert -> bool {
    (a: Alert) => f == AllAlerts || !a.read
  }

  /** `filteredAlerts`. */
  function FilteredAlerts(alerts: seq<Alert>, f: AlertFilter): seq<Alert> {
    Filter(alerts, ViewFn(f))
  }

  /** `unreadCount`: the alerts whose `read` flag is false. */
  function UnreadCount(alerts: seq<Alert>): nat {
    CountKey(alerts, ReadOf, false)
  }

  /** Under `'all'` the view is the whole list; under `'unread'` it is
      exactly the unread alerts, in order, and as many as the counter says. */
  lemma FilteredAlertsSpec(alerts: seq<Alert>)
    ensures FilteredAlerts(alerts, AllAlerts) == alerts
    ensures forall a :: a in FilteredAlerts(alerts, UnreadOnly) <==> a in alerts && !a.read
    ensures IsSubseq(FilteredAlerts(alerts, UnreadOnly), alerts)
    ensures |FilteredAlerts(alerts, UnreadOnly)| == UnreadCount(alerts)
  {
    FilterKeepsAll(alerts, ViewFn(AllAlerts));
    forall a | a in alerts && !a.read ensures a in FilteredAlerts(alerts, UnreadOnly) {
      var k :| 0 <= k < |alerts| && alerts[k] == a;
      assert ViewFn(UnreadOnly)(alerts[k]);
    }
    FilterIsSubseq(alerts, ViewFn(UnreadOnly));
    forall a ensures ViewFn(UnreadOnly)(a) == KeyIs(ReadOf, false)(a) {
      assert KeyIs(ReadOf, false)(a) == (ReadOf(a) == false);
    }
    FilterExt(alerts, ViewFn(UnreadOnly), KeyIs(ReadOf, false));
  }

  /** `markAsRead(id)`: the alerts with that id become read; nothing else
      changes, and length and order are kept. */
  function MarkedRead(alerts: seq<Alert>, id: string): (r: seq<Alert>)
    ensures |r| == |alerts|
    ensures forall k :: 0 <= k < |r| ==>
      && r[k].read == (alerts[k].read || alerts[k].id == id)
      && r[k].(read := alerts[k].read) == alerts[k]
  {
    seq(|alerts|, k requires 0 <= k < |alerts| =>
      if alerts[k].id == id then alerts[k].(read := true) else alerts[k])
  }

  /** Marking the same alert twice is marking it once. */
  lemma MarkedReadIdempotent(alerts: seq<Alert>, id: string)
    ensures MarkedRead(MarkedRead(alerts, id), id) == MarkedRead(alerts, id)
  {
    var once := MarkedRead(alerts, id);
    var twice := MarkedRead(once, id);
    forall k | 0 <= k < |alerts| ensures twice[k] == once[k] {
      assert twice[k].(read := once[k].read) == once[k];
    }
  }

  function UnreadOtherFn(id: string): Alert -> bool {
    (a: Alert) => !a.read && a.id != id
  }

  /** After marking, the unread alerts are the previously unread ones
      with another id; so the counter never goes up. */
  lemma {:induction false} MarkedReadUnread(alerts: seq<Alert>, id: string)
    ensures UnreadCount(MarkedRead(alerts, id)) == |Filter(alerts, UnreadOtherFn(id))|
    ensures UnreadCount(MarkedRead(alerts, id)) <= UnreadCount(alerts)
  {
    if alerts != [] {
      MarkedReadUnread(alerts[1..], id);
      var r := MarkedRead(alerts, id);
      assert r[1..] == MarkedRead(alerts[1..], id);
      assert KeyIs(ReadOf, false)(r[0]) == (ReadOf(r[0]) == false);
      assert KeyIs(ReadOf, false)(alerts[0]) == (ReadOf(alerts[0]) == false);
      assert KeyIs(ReadOf, false)(r[0]) == UnreadOtherFn(id)(alerts[0]);
      assert UnreadOtherFn(id)(alerts[0]) ==> KeyIs(ReadOf, false)(alerts[0]);
    }
  }

  /** `markAllAsRead`: every alert becomes read and nothing else changes. */
  function AllMarkedRead(alerts: seq<Alert>): (r: seq<Alert>)
    ensures |r| == |alerts|
    ensures forall k :: 0 <= k < |r| ==> r[k].read && r[k].(read := alerts[k].read) == alerts[k]
  {
    seq(|alerts|, k requires 0 <= k < |alerts| => alerts[k].(read := true))
  }

  /** After "mark all as read" nothing is unread and the button hides. */
  lemma AllMarkedReadClears(alerts: seq<Alert>)
    ensures UnreadCount(AllMarkedRead(alerts)) == 0
    ensures !ShowsMarkAll(AllMarkedRead(alerts))
  {
    var r := AllMarkedRead(alerts);
    CountKeyMultiplicity(r, ReadOf, false);
    assert false !in Project(r, ReadOf);
  }

  function IdIsNotFn(id: string): Alert -> bool {
    (a: Alert) => a.id != id
  }

  /** `dismissAlert(id)`. */
  function Dismissed(alerts: seq<Alert>, id: string): seq<Alert> {
    Filter(alerts, IdIsNotFn(id))
  }

  /** Dismissing removes every alert with that id, keeps every other
      alert, and keeps their relative order. */
  lemma DismissedSpec(alerts: seq<Alert>, id: string)
    ensures forall a :: a in Dismissed(alerts, id) <==> a in alerts && a.id != id
    ensures IsSubseq(Dismissed(alerts, id), alerts)
    ensures |Dismissed(alerts, id)| + CountKey(alerts, IdOf, id) == |alerts|
  {
    forall a | a in alerts && a.id != id ensures a in Dismissed(alerts, id) {
      var k :| 0 <= k < |alerts| && alerts[k] == a;
      assert IdIsNotFn(id)(alerts[k]);
    }
    FilterIsSubseq(alerts, IdIsNotFn(id));
    forall a ensures KeyIs(IdOf, id)(a) == !IdIsNotFn(id)(a) {
      assert KeyIs(IdOf, id)(a) == (IdOf(a) == id);
    }
    FilterComplement(alerts, IdIsNotFn(id), KeyIs(IdOf, id));
  }

  /** One tile's count. */
  function TypeCount(alerts: seq<Alert>, t: AlertType): nat {
    CountKey(alerts, KindOf, t)
  }

  /** The four tiles and the tile-less `status_change` alerts make up the
      list; so the tiles never add up to more than the total. */
  lemma {:induction false} TilesSum(alerts: seq<Alert>)
    ensures TypeCount(alerts, Overdue) + TypeCount(alerts, Escalation) + TypeCount(alerts, NewRisk)
      + TypeCount(alerts, Reminder) + TypeCount(alerts, StatusChange) == |alerts|
    ensures TypeCount(alerts, Overdue) + TypeCount(alerts, Escalation) + TypeCount(alerts, NewRisk)
      + TypeCount(alerts, Reminder) <= |alerts|
  {
    var ks := [Overdue, Escalation, NewRisk, Reminder, StatusChange];
    forall t: AlertType ensures t in ks {
      match t
      case Overdue => assert ks[0] == t;
      case Escalation => assert ks[1] == t;
      case NewRisk => assert ks[2] == t;
      case Reminder => assert ks[3] == t;
      case StatusChange => assert ks[4] == t;
    }
    CountsCoverAll(alerts, KindOf, ks);
    assert ks[1..] == [Escalation, NewRisk, Reminder, StatusChange];
    assert ks[2..] == [NewRisk, Reminder, StatusChange];
    assert ks[3..] == [Reminder, StatusChange] && ks[4..] == [StatusChange] && ks[5..] == [];
    assert SumCounts(alerts, KindOf, ks[4..]) == TypeCount(alerts, StatusChange);
    assert SumCounts(alerts, KindOf, ks[2..]) == TypeCount(alerts, NewRisk)
      + TypeCount(alerts, Reminder) + SumCounts(alerts, KindOf, ks[4..]);
  }

  /** "Mark all as read" is offered only while something is unread. */
  predicate ShowsMarkAll(alerts: seq<Alert>) {
    UnreadCount(alerts) > 0
  }

  /** The fixture's read flags and types, in list order. */
  lemma FixtureFlags()
    ensures Project(SampleAlerts, ReadOf) == [false, false, false, true, true]
    ensures Project(SampleAlerts, KindOf) == [Overdue, Escalation, NewRisk, Reminder, StatusChange]
  {
  }

  /** On the fixture: five alerts, three of them unread. */
  lemma FixtureUnread()
    ensures |SampleAlerts| == 5 && UnreadCount(SampleAlerts) == 3
  {
    FixtureFlags();
    CountKeyMultiplicity(SampleAlerts, ReadOf, false);
  }

  /** On the fixture every type occurs once. */
  lemma FixtureTypes()
    ensures forall t :: TypeCount(SampleAlerts, t) == 1
  {
    FixtureFlags();
    var kinds := Project(SampleAlerts, KindOf);
    forall t ensures TypeCount(SampleAlerts, t) == 1 {
      CountKeyMultiplicity(SampleAlerts, KindOf, t);
      match t
      case Overdue => assert multiset(kinds)[t] == 1;
      case Escalation => assert multiset(kinds)[t] == 1;
      case NewRisk => assert multiset(kinds)[t] == 1;
      case Reminder => assert multiset(kinds)[t] == 1;
      case StatusChange => assert multiset(kinds)[t] == 1;
    }
  }

  /** The page state: the alert list and the view filter. */
  class AlertsPage {
    var alerts: seq<Alert>
    var filter: AlertFilter

    constructor (initial: seq<Alert>)
      ensures alerts == initial && filter == AllAlerts
    {
      alerts := initial;
      filter := AllAlerts;
    }

    method SetFilter(f: AlertFilter)
      modifies this
      ensures filter == f && alerts == old(alerts)
    {
      filter := f;
    }

    /** Clicking an alert. */
    method MarkAsRead(id: string)
      modifies this
      ensures alerts == MarkedRead(old(alerts), id) && filter == old(filter)
      ensures UnreadCount(alerts) <= UnreadCount(old(alerts))
    {
      MarkedReadUnread(alerts, id);
      alerts := MarkedRead(alerts, id);
    }

    method MarkAllAsRead()
      modifies this
      ensures alerts == AllMarkedRead(old(alerts)) && filter == old(filter)
      ensures UnreadCount(alerts) == 0
    {
      alerts := AllMarkedRead(alerts);
      AllMarkedReadClears(old(alerts));
    }

    /** The dismiss button. */
    method DismissAlert(id: string)
      modifies this
      ensures alerts == Dismissed(old(alerts), id) && filter == old(filter)
      ensures forall a :: a in alerts ==> a.id != id
    {
      DismissedSpec(alerts, id);
      alerts := Dismissed(alerts, id);
    }
  }
}
