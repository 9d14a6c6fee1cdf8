/** The team page: the member search, the stat tiles and the initials
    shown in each row's avatar. */
module Team {
  import opened Wrappers
  import opened Seqs
  import opened Text

  datatype MemberRole = Admin | Manager | Analyst | Viewer
  datatype MemberStatus = Active | Pending

  datatype TeamMember = TeamMember(
    id: string,
    name: string,
    email: string,
    role: MemberRole,
    avatar: Option<string>,
    status: MemberStatus,
    risksOwned: int,
    lastActive: string)

  const Member1: TeamMember :=
    TeamMember("1", "John Doe", "john.doe@company.com", Admin, None, Active, 5, "Now")
  const Member2: TeamMember :=
    TeamMember("2", "Sarah Chen", "sarah.chen@company.com", Manager, None, Active, 8, "2 hours ago")
  const Member3: TeamMember :=
    TeamMember("3", "Mike Johnson", "mike.johnson@company.com", Analyst, None, Active, 12, "1 day ago")
  const Member4: TeamMember :=
    TeamMember("4", "Lisa Wang", "lisa.wang@company.com", Analyst, None, Active, 6, "3 hours ago")
  const Member5: TeamMember :=
    TeamMember("5", "Alex Martinez", "alex.martinez@company.com", Viewer, None, Pending, 0, "Pending invite")

  const TeamMembers: seq<TeamMember> := [Member1, Member2, Member3, Member4, Member5]

  /** The lowercased name or email contains the lowercased query. */
  predicate MatchesMember(m: TeamMember, query: string) {
    Contains(Lower(m.name), Lower(query)) || Contains(Lower(m.email), Lower(query))
  }

  function MemberFn(query: string): TeamMember -> bool {
    (m: TeamMember) => MatchesMember(m, query)
  }

  /** `filteredMembers`. */
  function FilteredMembers(members: seq<TeamMember>, query: string): seq<TeamMember> {
    Filter(members, MemberFn(query))
  }

  /** A member is listed iff the query matches the name or the email; the
      list keeps the roster's order; an empty query lists everyone. */
  lemma FilteredMembersSpec(members: seq<TeamMember>, query: string)
    ensures forall m :: m in FilteredMembers(members, query) <==> m in members && MatchesMember(m, query)
    ensures IsSubseq(FilteredMembers(members, query), members)
    ensures FilteredMembers(members, "") == members
  {
    forall m | m in members && MatchesMember(m, query) ensures m in FilteredMembers(members, query) {
      var k :| 0 <= k < |members| && members[k] == m;
      assert MemberFn(query)(members[k]);
    }
    FilterIsSubseq(members, MemberFn(query));
    forall k | 0 <= k < |members| ensures MemberFn("")(members[k]) {
      assert Lower("") == "";
      ContainsEmpty(Lower(members[k].name));
    }
    FilterKeepsAll(members, MemberFn(""));
  }

  function StatusOf(m: TeamMember): MemberStatus { m.status }
  function RoleOf(m: TeamMember): MemberRole { m.role }

  /** The tiles count the whole roster, whatever the search says. */
  function ActiveCount(members: seq<TeamMember>): nat { CountKey(members, StatusOf, Active) }
  function PendingCount(members: seq<TeamMember>): nat { CountKey(members, StatusOf, Pending) }
  function AdminCount(members: seq<TeamMember>): nat { CountKey(members, RoleOf, Admin) }

  /** Every member is active or pending, so the two tiles add up to the
      total; admins are at most the total. */
  lemma {:induction false} TilesAddUp(members: seq<TeamMember>)
    ensures ActiveCount(members) + PendingCount(members) == |members|
    ensures AdminCount(members) <= |members|
  {
    forall m ensures KeyIs(StatusOf, Pending)(m) == !KeyIs(StatusOf, Active)(m) {
      assert KeyIs(StatusOf, Pending)(m) == (StatusOf(m) == Pending);
      assert KeyIs(StatusOf, Active)(m) == (StatusOf(m) == Active);
    }
    FilterComplement(members, KeyIs(StatusOf, Active), KeyIs(StatusOf, Pending));
  }

  /** The roster's statuses and roles, in order. */
  lemma FixtureKeys()
    ensures Project(TeamMembers, StatusOf) == [Active, Active, Active, Active, Pending]
    ensures Project(TeamMembers, RoleOf) == [Admin, Manager, Analyst, Analyst, Viewer]
  {
  }

  /** On the roster: 5 members, 4 active, 1 pending, 1 admin. */
  lemma FixtureTiles()
    ensures |TeamMembers| == 5
    ensures ActiveCount(TeamMembers) == 4 && PendingCount(TeamMembers) == 1 && AdminCount(TeamMembers) == 1
  {
    FixtureKeys();
    CountKeyMultiplicity(TeamMembers, StatusOf, Active);
    CountKeyMultiplicity(TeamMembers, StatusOf, Pending);
    CountKeyMultiplicity(TeamMembers, RoleOf, Admin);
  }

  /** `name.split(' ').map((n) => n[0]).join('')`. */
  function Initials(name: string): string {
    FirstChars(Split(name, ' '))
  }

  /** The initials are the word-initial characters of the name, in
      order: no spaces, no more characters than the name. */
  lemma InitialsSpec(name: string)
    ensures Initials(name) == WordStarts(name, true)
    ensures |Initials(name)| <= |name|
    ensures forall k :: 0 <= k < |Initials(name)| ==> Initials(name)[k] != ' ' && Initials(name)[k] in name
  {
    FirstCharsOfWords(name);
    WordStartsChars(name, true);
  }

  /** "John Doe" gives "JD". */
  lemma InitialsExample()
    ensures Initials("John Doe") == "JD"
  {
    FirstCharsOfWords("John Doe");
    var s := "John Doe";
    assert s[1..] == "ohn Doe" && s[2..] == "hn Doe" && s[3..] == "n Doe" && s[4..] == " Doe";
    assert s[5..] == "Doe" && s[6..] == "oe" && s[7..] == "e" && s[8..] == "";
  }
}
