/** The sub-navigation bar: which group of links a path belongs to, and which link is active. */
module SubNavigation {

  /** A link of the bar: where it goes and the text it shows. */
  datatype NavItem = NavItem(href: string, caption: string)

  /** `navigationGroups`, in declaration order: transactions, synthesis, planning, account. */
  const NavigationGroups: seq<seq<NavItem>> := [
    [NavItem("/income", "Revenus"), NavItem("/expenses", "Dépenses"), NavItem("/transfers", "Virements")],
    [NavItem("/charts", "Graphiques")],
    [NavItem("/planning", "Planning")],
    [NavItem("/settings", "Paramètres")]
  ]

  /** `pathname.startsWith(prefix)`. */
  predicate StartsWith(pathname: string, prefix: string) {
    prefix <= pathname
  }

  /** `group.some(item => pathname.startsWith(item.href))`. */
  predicate Matches(group: seq<NavItem>, pathname: string) {
    exists k :: 0 <= k < |group| && StartsWith(pathname, group[k].href)
  }

  /** The first group of `groups` that matches `pathname`, or the empty list. */
  function FindGroupIn(groups: seq<seq<NavItem>>, pathname: string): (r: seq<NavItem>)
    ensures r == [] ==> forall i :: 0 <= i < |groups| ==> groups[i] == [] || !Matches(groups[i], pathname)
    ensures r != [] ==> exists i :: 0 <= i < |groups| && groups[i] == r && Matches(r, pathname) &&
                                    forall j :: 0 <= j < i ==> !Matches(groups[j], pathname)
  {
    if groups == [] then []
    else if Matches(groups[0], pathname) then groups[0]
    else
      var r := FindGroupIn(groups[1..], pathname);
      assert r != [] ==> exists i :: 0 <= i < |groups| && groups[i] == r && Matches(r, pathname) &&
                                    forall j :: 0 <= j < i ==> !Matches(groups[j], pathname) by {
        if r != [] {
          var i :| 0 <= i < |groups[1..]| && groups[1..][i] == r && Matches(r, pathname) &&
                   forall j :: 0 <= j < i ==> !Matches(groups[1..][j], pathname);
          assert groups[i + 1] == r;
          assert forall j :: 0 <= j < i + 1 ==> !Matches(groups[j], pathname) by {
            forall j | 0 <= j < i + 1 ensures !Matches(groups[j], pathname) {
              if j > 0 {
                assert groups[j] == groups[1..][j - 1];
              }
            }
          }
        }
      }
      r
  }

  /** `findGroup`. */
  function FindGroup(pathname: string): seq<NavItem> {
    FindGroupIn(NavigationGroups, pathname)
  }

  /** The match is on the raw string, not on a path segment. */
  lemma IncomeXSelectsTransactions()
    ensures FindGroup("/incomeX") == NavigationGroups[0]
  {
    assert StartsWith("/incomeX", NavigationGroups[0][0].href);
  }

  /** A path outside every group gets no links. */
  lemma DashboardHasNoGroup()
    ensures FindGroup("/dashboard") == []
  {
    var groups: seq<seq<NavItem>> := NavigationGroups;
    forall i, k | 0 <= i < |groups| && 0 <= k < |groups[i]|
      ensures !StartsWith("/dashboard", groups[i][k].href)
    {
      assert groups[i][k].href[1] != 'd';
    }
  }

  /** Every link of the table, in order. */
  const AllHrefs: seq<string> := ["/income", "/expenses", "/transfers", "/charts", "/planning", "/settings"]

  /** Where each link of the table sits in `AllHrefs`. */
  function Position(i: nat, k: nat): nat {
    if i == 0 then k else i + 2
  }

  lemma AllHrefsListsTheTable()
    ensures forall i, k :: 0 <= i < |NavigationGroups| && 0 <= k < |NavigationGroups[i]| ==>
              Position(i, k) < |AllHrefs| && AllHrefs[Position(i, k)] == NavigationGroups[i][k].href
    ensures forall i, k, i', k' ::
              (0 <= i < |NavigationGroups| && 0 <= k < |NavigationGroups[i]| &&
               0 <= i' < |NavigationGroups| && 0 <= k' < |NavigationGroups[i']| &&
               Position(i, k) == Position(i', k')) ==> i == i' && k == k'
  {
  }

  /** No link of the table is a prefix of another. */
  lemma HrefsPrefixFree()
    ensures forall a, b :: 0 <= a < |AllHrefs| && 0 <= b < |AllHrefs| && a != b ==> !(AllHrefs[a] <= AllHrefs[b])
  {
    forall a, b | 0 <= a < |AllHrefs| && 0 <= b < |AllHrefs| && a != b
      ensures !(AllHrefs[a] <= AllHrefs[b])
    {
      var x, y := AllHrefs[a], AllHrefs[b];
      assert x[1] != y[1] || x[2] != y[2] || x[3] != y[3];
    }
  }

  /** Two prefixes of one string are prefixes of each other. */
  lemma PrefixesNest(a: string, b: string, s: string)
    requires a <= s && b <= s && |a| <= |b|
    ensures a <= b
  {
    assert a == s[..|a|] == b[..|a|];
  }

  /** Two links that are both prefixes of one path are the same link. */
  lemma OneLinkMatches(pathname: string, i: nat, k: nat, i': nat, k': nat)
    requires i < |NavigationGroups| && k < |NavigationGroups[i]|
    requires i' < |NavigationGroups| && k' < |NavigationGroups[i']|
    requires StartsWith(pathname, NavigationGroups[i][k].href) && StartsWith(pathname, NavigationGroups[i'][k'].href)
    ensures i == i' && k == k'
  {
    AllHrefsListsTheTable();
    HrefsPrefixFree();
    var a, b := Position(i, k), Position(i', k');
    if a != b {
      if |AllHrefs[a]| <= |AllHrefs[b]| {
        PrefixesNest(AllHrefs[a], AllHrefs[b], pathname);
      } else {
        PrefixesNest(AllHrefs[b], AllHrefs[a], pathname);
      }
    }
  }

  /** At most one group matches any path. */
  lemma AtMostOneGroupMatches(pathname: string, i: nat, j: nat)
    requires i < |NavigationGroups| && j < |NavigationGroups|
    requires Matches(NavigationGroups[i], pathname) && Matches(NavigationGroups[j], pathname)
    ensures i == j
  {
    var k :| 0 <= k < |NavigationGroups[i]| && StartsWith(pathname, NavigationGroups[i][k].href);
    var k' :| 0 <= k' < |NavigationGroups[j]| && StartsWith(pathname, NavigationGroups[j][k'].href);
    OneLinkMatches(pathname, i, k, j, k');
  }

  /** The groups are pairwise different. */
  lemma GroupsDistinct()
    ensures forall i, j :: 0 <= i < j < |NavigationGroups| ==> NavigationGroups[i] != NavigationGroups[j]
  {
    forall i, j | 0 <= i < j < |NavigationGroups|
      ensures NavigationGroups[i] != NavigationGroups[j]
    {
      assert NavigationGroups[i][0] != NavigationGroups[j][0];
    }
  }

  /** Declaring the groups in any other order finds the same group for every path. */
  lemma OrderIrrelevant(groups: seq<seq<NavItem>>, pathname: string)
    requires multiset(groups) == multiset(NavigationGroups)
    ensures FindGroupIn(groups, pathname) == FindGroup(pathname)
  {
    var r, f := FindGroupIn(groups, pathname), FindGroup(pathname);
    forall g | g in groups ensures g in NavigationGroups {
      assert g in multiset(groups);
    }
    forall g | g in NavigationGroups ensures g in groups {
      assert g in multiset(NavigationGroups);
    }
    if r != [] {
      var i :| 0 <= i < |groups| && groups[i] == r && Matches(r, pathname);
      assert r in NavigationGroups;
      var a :| 0 <= a < |NavigationGroups| && NavigationGroups[a] == r;
      if f == [] {
        assert false;
      } else {
        var b :| 0 <= b < |NavigationGroups| && NavigationGroups[b] == f && Matches(f, pathname);
        AtMostOneGroupMatches(pathname, a, b);
      }
    } else if f != [] {
      assert false;
    }
  }

  /** `isActive`: the link is the page being shown. */
  predicate IsActive(pathname: string, item: NavItem) {
    pathname == item.href
  }

  /** Within a group, at most one link is active. */
  lemma AtMostOneActive(pathname: string, i: nat, k: nat, k': nat)
    requires i < |NavigationGroups| && k < |NavigationGroups[i]| && k' < |NavigationGroups[i]|
    requires IsActive(pathname, NavigationGroups[i][k]) && IsActive(pathname, NavigationGroups[i][k'])
    ensures k == k'
  {
    OneLinkMatches(pathname, i, k, i, k');
  }
}
