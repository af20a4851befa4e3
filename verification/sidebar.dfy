/** The dashboard sidebar: which navigation entries a user sees and which one is
    highlighted for the current location. */
module Sidebar {
  import opened Wrappers
  import opened Identity
  import opened JsString
  import opened SeqUtil
  import opened Models

  /** `isActive(path)`: the location is the path itself or lies below it. */
  predicate IsActive(pathname: string, path: string) {
    pathname == path || StartsWith(pathname, path + "/")
  }

  /** An entry is active exactly when the path is a prefix of the location that ends
      at the end of the location or at a `/`. */
  lemma IsActiveIff(pathname: string, path: string)
    ensures IsActive(pathname, path) <==>
      StartsWith(pathname, path) && (|pathname| == |path| || pathname[|path|] == '/')
  {
    if StartsWith(pathname, path) && |pathname| > |path| && pathname[|path|] == '/' {
      assert pathname[..|path| + 1] == path + "/";
    }
    if StartsWith(pathname, path + "/") {
      assert pathname[..|path|] == (path + "/")[..|path|];
      assert pathname[|path|] == (path + "/")[|path|];
    }
  }

  /** `/courses` is active on its detail pages but not on a path that merely starts
      with the same letters. */
  lemma CoursesHighlight()
    ensures IsActive("/courses", "/courses")
    ensures IsActive("/courses/1", "/courses")
    ensures !IsActive("/coursesX", "/courses")
    ensures !IsActive("/course", "/courses")
  {
    IsActiveIff("/coursesX", "/courses");
  }

  datatype NavItem = NavItem(name: string, href: string, roles: seq<Role>)

  const Everyone: seq<Role> := [Student, Mentor, Admin]

  /** The entries every role lists. */
  const SharedItems: seq<NavItem> := [
    NavItem("Dashboard", "/dashboard", Everyone),
    NavItem("Courses", "/courses", Everyone),
    NavItem("My Cohort", "/cohorts", Everyone),
    NavItem("Chat", "/chat", Everyone)
  ]

  const ProgressItem: NavItem := NavItem("Progress", "/progress", [Student])
  const MentorItem: NavItem := NavItem("Mentor Panel", "/mentor", [Mentor])
  const AdminItem: NavItem := NavItem("Admin Panel", "/admin", [Admin])

  /** `navItems`, in their declared order. */
  const NavItems: seq<NavItem> := SharedItems + [ProgressItem, MentorItem, AdminItem]

  /** `item.roles.includes(user?.role)`: nothing is included for a missing user. */
  function ShownTo(user: Option<User>): NavItem -> bool {
    (item: NavItem) => user.Some? && user.value.role in item.roles
  }

  /** `filteredNavItems`: the entries listing the user's role, in their order. */
  function VisibleItems(user: Option<User>): seq<NavItem> {
    Filter(ShownTo(user), NavItems)
  }

  /** The shown entries are the sublist, in order, of the entries listing the
      user's role; a missing user sees none. */
  lemma VisibleItemsSpec(user: Option<User>)
    ensures IsSubsequence(VisibleItems(user), NavItems)
    ensures forall item :: item in VisibleItems(user) <==> item in NavItems && user.Some? && user.value.role in item.roles
  {
    FilterIsSubsequence(ShownTo(user), NavItems);
    FilterMembership(ShownTo(user), NavItems);
  }

  /** The filter over the entry list: the shared entries as a block, then each
      role entry on its own. */
  lemma VisibleItemsSplit(user: Option<User>)
    ensures VisibleItems(user) ==
      Filter(ShownTo(user), SharedItems) + Filter(ShownTo(user), [ProgressItem]) +
      Filter(ShownTo(user), [MentorItem]) + Filter(ShownTo(user), [AdminItem])
  {
    var p := ShownTo(user);
    assert NavItems == SharedItems + [ProgressItem] + [MentorItem] + [AdminItem];
    FilterAppend(p, SharedItems + [ProgressItem] + [MentorItem], [AdminItem]);
    FilterAppend(p, SharedItems + [ProgressItem], [MentorItem]);
    FilterAppend(p, SharedItems, [ProgressItem]);
  }

  /** The shared entries are shown as a block to every role of the enumeration and
      to nobody else. */
  lemma SharedItemsShown(user: Option<User>)
    ensures user.Some? && user.value.role in Everyone ==> Filter(ShownTo(user), SharedItems) == SharedItems
    ensures !(user.Some? && user.value.role in Everyone) ==> Filter(ShownTo(user), SharedItems) == []
  {
    assert forall i :: 0 <= i < |SharedItems| ==> SharedItems[i].roles == Everyone by {
      forall i | 0 <= i < |SharedItems| ensures SharedItems[i].roles == Everyone {
        assert i == 0 || i == 1 || i == 2 || i == 3;
      }
    }
    FilterAllOrNone(ShownTo(user), SharedItems);
  }

  lemma SingletonFilter(p: NavItem -> bool, item: NavItem)
    ensures Filter(p, [item]) == if p(item) then [item] else []
  {
    assert [item][1..] == [];
  }

  /** The visible entries as the shared block followed by each role entry the user
      is shown. */
  lemma VisibleItemsByEntry(user: Option<User>)
    ensures VisibleItems(user) == Filter(ShownTo(user), SharedItems) +
      (if ShownTo(user)(ProgressItem) then [ProgressItem] else []) +
      (if ShownTo(user)(MentorItem) then [MentorItem] else []) +
      (if ShownTo(user)(AdminItem) then [AdminItem] else [])
  {
    var p := ShownTo(user);
    VisibleItemsSplit(user);
    SingletonFilter(p, ProgressItem);
    SingletonFilter(p, MentorItem);
    SingletonFilter(p, AdminItem);
  }

  lemma StudentNav(user: Option<User>)
    requires user.Some? && user.value.role == Student
    ensures VisibleItems(user) == SharedItems + [ProgressItem]
  {
    VisibleItemsByEntry(user);
    SharedItemsShown(user);
  }

  lemma MentorNav(user: Option<User>)
    requires user.Some? && user.value.role == Mentor
    ensures VisibleItems(user) == SharedItems + [MentorItem]
  {
    VisibleItemsByEntry(user);
    SharedItemsShown(user);
  }

  lemma AdminNav(user: Option<User>)
    requires user.Some? && user.value.role == Admin
    ensures VisibleItems(user) == SharedItems + [AdminItem]
  {
    VisibleItemsByEntry(user);
    SharedItemsShown(user);
  }

  lemma NoRoleNav(user: Option<User>)
    requires user.None? || user.value.role.OtherRole?
    ensures VisibleItems(user) == []
  {
    VisibleItemsByEntry(user);
    SharedItemsShown(user);
  }

  /** The entries each role sees: the four shared ones, then Progress for a student,
      Mentor Panel for a mentor, Admin Panel for an admin; nothing for a missing user
      or a role outside the enumeration. */
  lemma NavPerRole(user: Option<User>)
    ensures user.Some? && user.value.role == Student ==> VisibleItems(user) == SharedItems + [ProgressItem]
    ensures user.Some? && user.value.role == Mentor ==> VisibleItems(user) == SharedItems + [MentorItem]
    ensures user.Some? && user.value.role == Admin ==> VisibleItems(user) == SharedItems + [AdminItem]
    ensures (user.None? || user.value.role.OtherRole?) ==> VisibleItems(user) == []
  {
    if user.None? || user.value.role.OtherRole? {
      NoRoleNav(user);
    } else if user.value.role == Student {
      StudentNav(user);
    } else if user.value.role == Mentor {
      MentorNav(user);
    } else {
      AdminNav(user);
    }
  }

  /** The mentor route admits admins, yet an admin's sidebar has no entry for it. */
  lemma AdminsHaveNoMentorEntry(u: User)
    requires u.role == Admin
    ensures forall item :: item in VisibleItems(Some(u)) ==> item.href != "/mentor"
  {
    VisibleItemsSpec(Some(u));
  }
}
