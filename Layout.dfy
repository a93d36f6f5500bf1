/**
  The shell around every signed-in page: the sidebar's links, which of
  them is highlighted, their test ids, the role shown under the user's
  name, and whether the mobile sidebar is open.
*/
module Layout {
  import opened Wrappers
  import opened Text
  import opened Lists
  import opened Models
  import opened Json
  import opened Session

  datatype NavLink = NavLink(name: string, href: string)

  const Navigation: seq<NavLink> := [
    NavLink("Dashboard", "/"), NavLink("Items", "/items"), NavLink("Customers", "/customers"),
    NavLink("Suppliers", "/suppliers"), NavLink("Purchase Orders", "/purchase-orders"),
    NavLink("Sales Orders", "/sales-orders"), NavLink("Invoices", "/invoices"), NavLink("Inventory", "/inventory"),
    NavLink("Payments", "/payments"), NavLink("Reports", "/reports")]

  const SettingsNavigation: seq<NavLink> := [
    NavLink("Company Settings", "/settings/company"), NavLink("User Management", "/settings/users")]

  /** A link is highlighted when the current path is its target, character for character. */
  predicate IsActive(pathname: string, link: NavLink) {
    pathname == link.href
  }

  /** The dashboard link is highlighted on the root path only, not on every path below it. */
  lemma DashboardOnlyAtRoot(pathname: string)
    ensures IsActive(pathname, Navigation[0]) <==> pathname == "/"
  {
  }

  /** No two sidebar links share a target, so at most one is highlighted on any path. */
  lemma {:induction false} AtMostOneActive(pathname: string, i: nat, j: nat)
    requires i < |Navigation + SettingsNavigation| && j < |Navigation + SettingsNavigation|
    requires IsActive(pathname, (Navigation + SettingsNavigation)[i]) && IsActive(pathname, (Navigation + SettingsNavigation)[j])
    ensures i == j
  {
    var links := Navigation + SettingsNavigation;
    var h := links[i].href;
    assert h == links[j].href;
    assert |h| > 1 ==> |links[i].href| == |links[j].href| && links[i].href[1] == links[j].href[1];
  }

  /** Every sidebar link leads to a page of the shell. */
  lemma {:induction false} EveryLinkRoutes(link: NavLink, user: Value)
    requires link in Navigation + SettingsNavigation && Truthy(user)
    ensures Route(link.href, false, user).Shell? && Route(link.href, false, user).page.Some?
  {
    var links := Navigation + SettingsNavigation;
    var i :| 0 <= i < |links| && links[i] == link;
    assert Pages[i].0 == links[i].href;
  }

  /** The text after leading whitespace. */
  function SkipSpaces(s: string): (r: string)
    ensures |r| <= |s|
    ensures r == [] || !IsSpace(r[0])
  {
    if s != [] && IsSpace(s[0]) then SkipSpaces(s[1..]) else s
  }

  /** `s.replace(/\s+/g, '-')`: every run of whitespace becomes one hyphen. */
  function HyphenateSpaces(s: string): (r: string)
    ensures forall i :: 0 <= i < |r| ==> !IsSpace(r[i])
    ensures |r| <= |s|
    decreases |s|
  {
    if s == [] then []
    else if IsSpace(s[0]) then "-" + HyphenateSpaces(SkipSpaces(s[1..]))
    else [s[0]] + HyphenateSpaces(s[1..])
  }

  /** Text without whitespace is left as it is. */
  lemma {:induction false} HyphenateWithoutSpaces(s: string)
    requires forall i :: 0 <= i < |s| ==> !IsSpace(s[i])
    ensures HyphenateSpaces(s) == s
  {
    if s != [] {
      HyphenateWithoutSpaces(s[1..]);
    }
  }

  /** Text without hyphens comes out with no two hyphens in a row: a run of whitespace gives exactly one. */
  lemma {:induction false} HyphenateRunsOnce(s: string)
    requires forall i :: 0 <= i < |s| ==> s[i] != '-'
    ensures forall i :: 0 <= i < |HyphenateSpaces(s)| - 1 ==> !(HyphenateSpaces(s)[i] == '-' && HyphenateSpaces(s)[i + 1] == '-')
    decreases |s|
  {
    if s != [] {
      if IsSpace(s[0]) {
        var t := SkipSpaces(s[1..]);
        SkipSpacesSuffix(s[1..]);
        HyphenateRunsOnce(t);
        var h := HyphenateSpaces(t);
        if h != [] {
          assert t != [] && !IsSpace(t[0]) && t[0] != '-';
          assert h[0] == t[0];
        }
        assert HyphenateSpaces(s) == "-" + h;
      } else {
        HyphenateRunsOnce(s[1..]);
        var h := HyphenateSpaces(s[1..]);
        assert HyphenateSpaces(s) == [s[0]] + h;
      }
    }
  }

  /** What whitespace skipping leaves is the tail of the text. */
  lemma {:induction false} SkipSpacesSuffix(s: string)
    ensures SkipSpaces(s) == s[|s| - |SkipSpaces(s)|..]
  {
    if s != [] && IsSpace(s[0]) {
      SkipSpacesSuffix(s[1..]);
    }
  }

  /** The `data-testid` of a link. */
  function TestId(link: NavLink): string {
    "nav-" + HyphenateSpaces(Lower(link.name))
  }

  predicate NoSpaces(s: string) {
    forall i :: 0 <= i < |s| ==> !IsSpace(s[i])
  }

  /** Text without whitespace in front of the rest passes through unchanged. */
  lemma {:induction false} HyphenateAfterWord(a: string, s: string)
    requires NoSpaces(a)
    ensures HyphenateSpaces(a + s) == a + HyphenateSpaces(s)
  {
    if a == [] {
      assert a + s == s;
    } else {
      assert (a + s)[0] == a[0] && (a + s)[1..] == a[1..] + s;
      assert NoSpaces(a[1..]);
      HyphenateAfterWord(a[1..], s);
      assert a == [a[0]] + a[1..];
    }
  }

  /** Two words separated by one space come out joined by a hyphen. */
  lemma HyphenateTwoWords(a: string, b: string)
    requires NoSpaces(a) && NoSpaces(b)
    ensures HyphenateSpaces(a + " " + b) == a + "-" + b
  {
    assert a + " " + b == a + (" " + b);
    HyphenateAfterWord(a, " " + b);
    assert (" " + b)[1..] == b;
    assert SkipSpaces(b) == b;
    HyphenateWithoutSpaces(b);
  }

  /** Lower-casing adds no whitespace. */
  lemma LowerNoSpaces(s: string)
    requires NoSpaces(s)
    ensures NoSpaces(Lower(s))
  {
  }

  /** A two-word link name gives the lower-cased words joined by a hyphen, as "Purchase Orders" gives "nav-purchase-orders". */
  lemma {:induction false} TwoWordTestId(first: string, second: string, href: string)
    requires NoSpaces(first) && NoSpaces(second)
    ensures TestId(NavLink(first + " " + second, href)) == "nav-" + Lower(first) + "-" + Lower(second)
  {
    LowerAppend(first + " ", second);
    LowerAppend(first, " ");
    assert Lower(" ") == " ";
    LowerNoSpaces(first);
    LowerNoSpaces(second);
    HyphenateTwoWords(Lower(first), Lower(second));
  }

  /** `role.replace('_', ' ')`: a string pattern replaces its first occurrence only. */
  function RoleLabel(role: string): (r: string)
    ensures |r| == |role|
    ensures (forall i :: 0 <= i < |role| ==> role[i] != '_') ==> r == role
    ensures forall k :: 0 <= k < |role| && role[k] == '_' && (forall j :: 0 <= j < k ==> role[j] != '_') ==>
      r == role[..k] + " " + role[k + 1..]
  {
    match FirstIndex(role, (c: char) => c == '_')
    case Some(k) => role[..k] + " " + role[k + 1..]
    case None => role
  }

  /** The label of a role with one underscore has none: `super_admin` reads `super admin`. */
  lemma {:induction false} RoleLabelOneUnderscore(first: string, second: string)
    requires forall i :: 0 <= i < |first| ==> first[i] != '_'
    requires forall i :: 0 <= i < |second| ==> second[i] != '_'
    ensures RoleLabel(first + "_" + second) == first + " " + second
  {
    var s := first + "_" + second;
    var k := |first|;
    assert s[k] == '_';
    assert forall j :: 0 <= j < k ==> s[j] == first[j];
    assert s[..k] == first && s[k + 1..] == second;
  }

  class Shell {
    var sidebarOpen: bool

    constructor ()
      ensures !sidebarOpen
    {
      sidebarOpen := false;
    }

    /** The sheet's open state follows the menu button and the sheet's own close. */
    method OpenChange(open: bool)
      modifies this
      ensures sidebarOpen == open
    {
      sidebarOpen := open;
    }

    /** A click on a link closes the sidebar when the link is in the mobile sheet and leaves it as it was otherwise. */
    method ClickLink(mobile: bool)
      modifies this
      ensures sidebarOpen == (if mobile then false else old(sidebarOpen))
    {
      if mobile {
        sidebarOpen := false;
      }
    }
  }
}
