/** The dashboard sidebar: the menu table and the role filter over it. */
module AppSidebar {
  import opened Wrappers
  import opened Seqs

  /** One menu entry and the roles allowed to see it. */
  datatype Item = Item(title: string, url: string, roles: seq<string>)

  const Home := Item("Home", "/dashboard", ["ADMIN", "MEMBER"])
  const MyIdea := Item("My Idea", "/dashboard/myidea", ["MEMBER", "ADMIN"])
  const MyPurchases := Item("My Purchases", "/dashboard/mypurchases", ["MEMBER", "ADMIN"])
  const ManageIdeas := Item("Manage Ideas", "/dashboard/manageideas", ["ADMIN"])
  const ManageUsers := Item("Manage Users", "/dashboard/manageusers", ["ADMIN"])
  const ManageCategories := Item("Manage Categories", "/dashboard/managecategories", ["ADMIN"])
  const Profile := Item("Profile", "/dashboard/profile", ["ADMIN", "MEMBER"])

  /** `allItems`, in table order. */
  const AllItems: seq<Item> := [Home, MyIdea, MyPurchases, ManageIdeas, ManageUsers, ManageCategories, Profile]

  /** `item.roles.includes(role)`. */
  predicate Allows(role: string, item: Item)
  {
    role in item.roles
  }

  /** The filtered menu for the session's role; a missing role reads as "". */
  function MenuFor(role: Option<string>): (menu: seq<Item>)
    ensures IsSubsequence(menu, AllItems)
    ensures forall i :: 0 <= i < |menu| ==> Allows(if role.Some? then role.value else "", menu[i])
    ensures forall i :: 0 <= i < |AllItems| && Allows(if role.Some? then role.value else "", AllItems[i]) ==>
              AllItems[i] in menu
  {
    var r := if role.Some? then role.value else "";
    FilterIsSubsequence(AllItems, item => Allows(r, item));
    Filter(AllItems, item => Allows(r, item))
  }

  /** The two roles the table knows. */
  predicate KnownRole(role: string)
  {
    role == "ADMIN" || role == "MEMBER"
  }

  /** An administrator sees the whole table. */
  lemma AdminSeesAll()
    ensures MenuFor(Some("ADMIN")) == AllItems
  {
    FilterAll(AllItems, item => Allows("ADMIN", item));
  }

  /** A member sees the four member entries and none of the three Manage pages. */
  lemma MemberMenu()
    ensures MenuFor(Some("MEMBER")) == [Home, MyIdea, MyPurchases, Profile]
  {
    var keep := item => Allows("MEMBER", item);
    var shared, managed := [Home, MyIdea, MyPurchases], [ManageIdeas, ManageUsers, ManageCategories];
    assert keep(Home) && keep(MyIdea) && keep(MyPurchases) && keep(Profile);
    assert !keep(ManageIdeas) && !keep(ManageUsers) && !keep(ManageCategories);
    assert AllItems == shared + managed + [Profile];
    FilterDropsMiddle(shared, managed, [Profile], keep);
  }

  /** A role no entry lists, including the missing role, gives an empty menu. */
  lemma UnknownRoleSeesNothing(role: Option<string>)
    requires role.None? || !KnownRole(role.value)
    ensures MenuFor(role) == []
  {
    var r := if role.Some? then role.value else "";
    FilterNone(AllItems, item => Allows(r, item));
  }

  /** The sidebar's output: a redirect when there is no session, or the menu. */
  datatype View = RedirectToLogin | Menu(items: seq<Item>)

  /** `AppSidebar`: `session` is the server session, holding the user's role when there is one. */
  function Sidebar(session: Option<Option<string>>): (v: View)
    ensures v.RedirectToLogin? <==> session.None?
    ensures session.Some? ==> v.items == MenuFor(session.value)
  {
    if session.None? then RedirectToLogin else Menu(MenuFor(session.value))
  }
}
