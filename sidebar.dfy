/** The sidebar: which navigation entry is highlighted, the user's
    initials and name in the footer, the collapse toggle and logout. */
module Sidebar {
  import opened Wrappers
  import opened Text
  import opened Auth

  /** `isActive(path)` against the current pathname: the dashboard entry
      only on `/` itself, every other entry on any pathname that starts
      with its path. */
  predicate IsActive(path: string, pathname: string) {
    if path == "/" then pathname == "/" else StartsWith(pathname, path)
  }

  /** The paths of the main and the secondary menu, in display order. */
  const NavPaths: seq<string> :=
    ["/", "/risks", "/alerts", "/analytics", "/reports", "/ai-coach", "/team", "/settings", "/help"]

  /** Two paths whose second or third characters differ are not
      prefixes of one another. */
  lemma NotPrefix(a: string, b: string)
    requires |a| >= 3 && (b == "/" || (|b| >= 3 && (a[1] != b[1] || a[2] != b[2])))
    ensures !StartsWith(b, a)
  {
    if |a| <= |b| {
      assert b[..|a|][1] == b[1] && b[..|a|][2] == b[2];
    }
  }

  /** On every menu entry's own page, that entry and no other is
      highlighted: the root entry is matched exactly, and no other path
      is a prefix of another, since their second and third characters
      already differ. */
  lemma NavHighlightsOne()
    ensures forall i, j :: 0 <= i < |NavPaths| && 0 <= j < |NavPaths| ==>
      (IsActive(NavPaths[i], NavPaths[j]) <==> i == j)
  {
    var P := NavPaths;
    assert forall k :: 1 <= k < |P| ==> |P[k]| >= 5;
    assert P[1][1] == 'r' && P[1][2] == 'i' && P[2][1] == 'a' && P[2][2] == 'l';
    assert P[3][1] == 'a' && P[3][2] == 'n' && P[4][1] == 'r' && P[4][2] == 'e';
    assert P[5][1] == 'a' && P[5][2] == 'i' && P[6][1] == 't' && P[6][2] == 'e';
    assert P[7][1] == 's' && P[7][2] == 'e' && P[8][1] == 'h' && P[8][2] == 'e';
    forall i, j | 0 <= i < |P| && 0 <= j < |P|
      ensures IsActive(P[i], P[j]) <==> i == j
    {
      if i == j {
        assert P[i][..|P[i]|] == P[i];
      } else if i != 0 {
        assert j == 0 || P[j][1] != P[i][1] || P[j][2] != P[i][2];
        NotPrefix(P[i], P[j]);
      }
    }
  }

  /** A non-root entry stays highlighted on every page below its path,
      and also on any page whose path merely extends it. */
  lemma ActiveOnExtensions(path: string, rest: string)
    requires path != "/"
    ensures IsActive(path, path + rest)
  {
    assert (path + rest)[..|path|] == path;
  }

  /** `/risks` is active on `/risks/4` and on `/risksX` alike; the
      dashboard entry is not active on `/risks`. */
  lemma ActiveOnExtensionsExample()
    ensures IsActive("/risks", "/risks/4") && IsActive("/risks", "/risksX")
    ensures !IsActive("/", "/risks")
  {
    ActiveOnExtensions("/risks", "/4");
    ActiveOnExtensions("/risks", "X");
    assert "/risks" + "/4" == "/risks/4" && "/risks" + "X" == "/risksX";
  }

  /** `getInitials`: the first character of every space-separated part,
      uppercased, cut to two characters. */
  function GetInitials(name: string): string {
    var all := Upper(FirstChars(Split(name, ' ')));
    if |all| <= 2 then all else all[..2]
  }

  /** At most two characters: the uppercased first two word starts of the
      name, none of them a space and none an ASCII lower-case letter. */
  lemma GetInitialsSpec(name: string)
    ensures |GetInitials(name)| <= 2
    ensures |GetInitials(name)| == if |WordStarts(name, true)| < 2 then |WordStarts(name, true)| else 2
    ensures forall k :: 0 <= k < |GetInitials(name)| ==>
      GetInitials(name)[k] == UpperChar(WordStarts(name, true)[k])
      && GetInitials(name)[k] != ' ' && !IsAsciiLower(GetInitials(name)[k])
  {
    FirstCharsOfWords(name);
    WordStartsChars(name, true);
  }

  /** The footer avatar: the initials of a signed-in user, `U` otherwise. */
  function AvatarText(user: Option<User>): (r: string)
    ensures user.None? ==> r == "U"
    ensures user.Some? ==> r == GetInitials(user.value.name)
  {
    match user
    case None => "U"
    case Some(u) => GetInitials(u.name)
  }

  /** The footer name: `user?.name || 'User'`, so an empty name also
      falls back. */
  function DisplayName(user: Option<User>): (r: string)
    ensures r != ""
    ensures r == "User" <==> user.None? || user.value.name == "" || user.value.name == "User"
    ensures user.Some? && user.value.name != "" ==> r == user.value.name
  {
    if user.Some? && user.value.name != "" then user.value.name else "User"
  }

  /** The sidebar's own state: the collapse flag and the route it last
      asked the router to open. */
  class SidebarState {
    var collapsed: bool
    var navigatedTo: Option<string>

    constructor ()
      ensures !collapsed && navigatedTo == None
    {
      collapsed := false;
      navigatedTo := None;
    }

    /** The chevron button flips the flag. */
    method ToggleCollapsed()
      modifies this
      ensures collapsed == !old(collapsed)
      ensures navigatedTo == old(navigatedTo)
    {
      collapsed := !collapsed;
    }

    /** `handleLogout`: end the session, then go to the landing page. */
    method HandleLogout(auth: AuthSession)
      modifies this, auth
      ensures auth.user == None && !auth.IsAuthenticated() && Key !in auth.storage
      ensures auth.storage == old(auth.storage) - {Key}
      ensures navigatedTo == Some("/landing")
      ensures collapsed == old(collapsed)
    {
      auth.Logout();
      navigatedTo := Some("/landing");
    }
  }
}
