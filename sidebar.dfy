/** The side menu: a fixed table of pages, each open to a list of roles,
    filtered by the signed-in user's role; the current page is highlighted
    and the menu can be collapsed. */
module Sidebar {
  import opened Text
  import opened Auth

  /** A menu entry; an entry without roles is open to everyone. */
  datatype SidebarItem = SidebarItem(caption: string, href: string, roles: Option<seq<string>>)

  const DASHBOARD := SidebarItem("Dashboard", "/dashboard", Some([ADMIN, PROTOCOL_OFFICER, PROTOCOL_INCHARGE]))
  const ADMIN_PANEL := SidebarItem("Admin Panel", "/admin", Some([ADMIN]))
  const OFFICER_PAGE := SidebarItem("Protocol Officer", "/protocol-officer", Some([ADMIN, PROTOCOL_OFFICER]))
  const INCHARGE_PAGE := SidebarItem("Protocol In-charge", "/protocol-incharge", Some([ADMIN, PROTOCOL_INCHARGE]))
  const CREATE_REQUESTS := SidebarItem("Create Requests", "/requestee", Some([REQUESTEE]))
  const REQUEST_STATUS := SidebarItem("Request Status", "/request-status", Some([REQUESTEE]))

  /** The menu table, in display order. */
  const SIDEBAR_ITEMS: seq<SidebarItem> :=
    [DASHBOARD, ADMIN_PANEL, OFFICER_PAGE, INCHARGE_PAGE, CREATE_REQUESTS, REQUEST_STATUS]

  /** An entry is shown when it lists no roles or the user has one of them. */
  predicate Visible(item: SidebarItem, user: Option<User>) {
    item.roles.None? || exists k :: 0 <= k < |item.roles.value| && HasRole(user, One(item.roles.value[k]))
  }

  /** `sidebarItems.filter(...)` */
  function FilteredItems(items: seq<SidebarItem>, user: Option<User>): seq<SidebarItem>
    decreases |items|
  {
    if items == [] then []
    else (if Visible(items[0], user) then [items[0]] else []) + FilteredItems(items[1..], user)
  }

  /** The menu holds exactly the visible entries of the table. */
  lemma {:induction false} FilteredItemsMembers(items: seq<SidebarItem>, user: Option<User>)
    ensures |FilteredItems(items, user)| <= |items|
    ensures forall x :: x in FilteredItems(items, user) <==> x in items && Visible(x, user)
  {
    if items != [] {
      FilteredItemsMembers(items[1..], user);
      assert items == [items[0]] + items[1..];
    }
  }

  /** Filtering a table split in two filters each part in place: the menu
      keeps the table's order. */
  lemma {:induction false} FilterKeepsOrder(a: seq<SidebarItem>, b: seq<SidebarItem>, user: Option<User>)
    ensures FilteredItems(a + b, user) == FilteredItems(a, user) + FilteredItems(b, user)
  {
    if a != [] {
      FilterKeepsOrder(a[1..], b, user);
      assert (a + b)[1..] == a[1..] + b;
    } else {
      assert a + b == b;
    }
  }

  /** With an entry's roles and a user's role in hand, visibility is
      membership; without a user nothing that lists roles is visible. */
  lemma VisibleIff(item: SidebarItem, user: Option<User>)
    requires item.roles.Some?
    ensures Visible(item, user) <==> user.Some? && user.value.userType in item.roles.value
  {
    if user.Some? && user.value.userType in item.roles.value {
      var k :| 0 <= k < |item.roles.value| && item.roles.value[k] == user.value.userType;
      assert HasRole(user, One(item.roles.value[k]));
    }
  }

  /** Every entry of the table lists roles, so a visitor who is not signed
      in sees an empty menu. */
  lemma NoUserNoMenu()
    ensures FilteredItems(SIDEBAR_ITEMS, None) == []
  {
    NoneVisible(SIDEBAR_ITEMS, None);
  }

  /** A table none of whose entries is visible gives an empty menu. */
  lemma {:induction false} NoneVisible(items: seq<SidebarItem>, user: Option<User>)
    requires forall k :: 0 <= k < |items| ==> !Visible(items[k], user)
    ensures FilteredItems(items, user) == []
  {
    if items != [] {
      NoneVisible(items[1..], user);
    }
  }

  /** The menu of a role: the entries listing it, in table order. */
  lemma {:induction false} MenuOfRole(items: seq<SidebarItem>, u: User)
    requires forall k :: 0 <= k < |items| ==> items[k].roles.Some?
    ensures FilteredItems(items, Some(u)) == RoleMenu(items, u.userType)
  {
    if items != [] {
      VisibleIff(items[0], Some(u));
      MenuOfRole(items[1..], u);
    }
  }

  /** The entries whose roles include `role`, in order. */
  function RoleMenu(items: seq<SidebarItem>, role: string): seq<SidebarItem>
    requires forall k :: 0 <= k < |items| ==> items[k].roles.Some?
    decreases |items|
  {
    if items == [] then []
    else (if role in items[0].roles.value then [items[0]] else []) + RoleMenu(items[1..], role)
  }

  /** A requestee sees exactly Create Requests and Request Status: the
      dashboard entry leaves the requestee out. */
  lemma RequesteeMenu(u: User)
    requires u.userType == REQUESTEE
    ensures FilteredItems(SIDEBAR_ITEMS, Some(u)) == [CREATE_REQUESTS, REQUEST_STATUS]
  {
    MenuOfRole(SIDEBAR_ITEMS, u);
    RoleNamesDiffer();
    UnrollRoleMenu(u.userType);
  }

  /** An admin sees the dashboard and the three management pages, and none
      of the requestee's. */
  lemma AdminMenu(u: User)
    requires u.userType == ADMIN
    ensures FilteredItems(SIDEBAR_ITEMS, Some(u)) == [DASHBOARD, ADMIN_PANEL, OFFICER_PAGE, INCHARGE_PAGE]
  {
    MenuOfRole(SIDEBAR_ITEMS, u);
    RoleNamesDiffer();
    UnrollRoleMenu(u.userType);
  }

  /** The table's menu for a role, entry by entry. */
  lemma UnrollRoleMenu(role: string)
    ensures RoleMenu(SIDEBAR_ITEMS, role) ==
      (if role in DASHBOARD.roles.value then [DASHBOARD] else [])
      + (if role in ADMIN_PANEL.roles.value then [ADMIN_PANEL] else [])
      + (if role in OFFICER_PAGE.roles.value then [OFFICER_PAGE] else [])
      + (if role in INCHARGE_PAGE.roles.value then [INCHARGE_PAGE] else [])
      + (if role in CREATE_REQUESTS.roles.value then [CREATE_REQUESTS] else [])
      + (if role in REQUEST_STATUS.roles.value then [REQUEST_STATUS] else [])
  {
    var t := SIDEBAR_ITEMS;
    var t1, t2, t3, t4, t5 := t[1..], t[2..], t[3..], t[4..], t[5..];
    assert t5[1..] == [];
    assert RoleMenu(t5, role) == (if role in REQUEST_STATUS.roles.value then [REQUEST_STATUS] else []);
    assert t4[1..] == t5 && t4[0] == CREATE_REQUESTS;
    assert RoleMenu(t4, role) == (if role in CREATE_REQUESTS.roles.value then [CREATE_REQUESTS] else []) + RoleMenu(t5, role);
    assert t3[1..] == t4 && t3[0] == INCHARGE_PAGE;
    assert RoleMenu(t3, role) == (if role in INCHARGE_PAGE.roles.value then [INCHARGE_PAGE] else []) + RoleMenu(t4, role);
    assert t2[1..] == t3 && t2[0] == OFFICER_PAGE;
    assert RoleMenu(t2, role) == (if role in OFFICER_PAGE.roles.value then [OFFICER_PAGE] else []) + RoleMenu(t3, role);
    assert t1[1..] == t2 && t1[0] == ADMIN_PANEL;
    assert RoleMenu(t1, role) == (if role in ADMIN_PANEL.roles.value then [ADMIN_PANEL] else []) + RoleMenu(t2, role);
    assert t[1..] == t1 && t[0] == DASHBOARD;
  }

  lemma RoleNamesDiffer()
    ensures REQUESTEE != ADMIN && REQUESTEE != PROTOCOL_OFFICER && REQUESTEE != PROTOCOL_INCHARGE
    ensures ADMIN != PROTOCOL_OFFICER && ADMIN != PROTOCOL_INCHARGE
  {
    assert ADMIN[0] != PROTOCOL_OFFICER[0] && ADMIN[0] != REQUESTEE[0];
    assert PROTOCOL_OFFICER[0] != REQUESTEE[0] && PROTOCOL_INCHARGE[0] != REQUESTEE[0];
  }

  /** An entry is highlighted when the current path is exactly its link. */
  predicate IsActive(item: SidebarItem, pathname: string) {
    pathname == item.href
  }

  /** The table's links are all different, so at most one entry of the
      menu is highlighted on any page. */
  lemma AtMostOneActive(pathname: string, i: nat, j: nat)
    requires i < j < |SIDEBAR_ITEMS|
    ensures IsActive(SIDEBAR_ITEMS[i], pathname) ==> !IsActive(SIDEBAR_ITEMS[j], pathname)
  {
    assert |DASHBOARD.href| == 10 && |ADMIN_PANEL.href| == 6 && |OFFICER_PAGE.href| == 17;
    assert |INCHARGE_PAGE.href| == 18 && |CREATE_REQUESTS.href| == 10 && |REQUEST_STATUS.href| == 15;
    assert DASHBOARD.href[1] != CREATE_REQUESTS.href[1];
  }

  /** The role line under the user's name: the role with its first
      underscore turned into a space. */
  function RoleCaption(user: Option<User>): (caption: string)
    ensures user.None? ==> caption == ""
    ensures user.Some? && '_' !in user.value.userType ==> caption == user.value.userType
  {
    match user
    case None => ""
    case Some(u) =>
      NoUnderscore(u.userType);
      ReplaceFirst(u.userType, "_", " ")
  }

  lemma NoUnderscore(s: string)
    ensures '_' !in s ==> forall j: nat :: j <= |s| ==> !OccursAt(s, "_", j)
  {
    if '_' !in s {
      forall j: nat | j <= |s| ensures !OccursAt(s, "_", j) {
        if j + 1 <= |s| {
          assert s[j..j + 1][0] == s[j];
        }
      }
    }
  }

  /** Only the first underscore becomes a space. */
  lemma RoleCaptionFirstUnderscore(u: User, before: string, after: string)
    requires u.userType == before + "_" + after && '_' !in before
    ensures RoleCaption(Some(u)) == before + " " + after
  {
    var s := u.userType;
    var k := |before|;
    assert OccursAt(s, "_", k) by {
      assert s[k..k + 1] == "_";
    }
    forall j: nat | j < k ensures !OccursAt(s, "_", j) {
      assert s[j] == before[j];
    }
    assert s[..k] == before && s[k + 1..] == after;
  }

  class SidebarState {
    var collapsed: bool

    constructor()
      ensures !collapsed
    {
      collapsed := false;
    }

    /** The collapse button. */
    method Toggle()
      modifies this
      ensures collapsed == !old(collapsed)
    {
      collapsed := !collapsed;
    }

    /** The user block is shown only when the menu is open and someone is
        signed in. */
    function ShowsUser(user: Option<User>): (b: bool)
      reads this
      ensures b <==> !collapsed && user.Some?
    {
      !collapsed && user.Some?
    }
  }
}
