/** The sidebar: its navigation sections and the rule that marks an item active. */
module Sidebar {
  import opened JsStrings

  /** `isActive(path)` on the current `pathname`: the dashboard is active on `/` and on
      `/dashboard`; any other item is active on every path that starts with its own. */
  predicate IsActive(pathname: string, path: string) {
    if path == "/" || path == "/dashboard" then pathname == "/" || pathname == "/dashboard"
    else StartsWith(pathname, path)
  }

  datatype Item = Item(path: string, caption: string)
  datatype Section = Section(title: string, items: seq<Item>)

  const Navigation: seq<Section> := [
    Section("Dashboard", [Item("/dashboard", "Expenses Dashboard")]),
    Section("Expense Reports", [Item("/expense-reports", "Expense Reports"), Item("/expense-reports/new", "Create Report")]),
    Section("Approvals", [Item("/approvals", "Approvals")]),
    Section("Configuration", [Item("/configuration/templates", "Expense Templates"), Item("/configuration/types", "Expense Types")])
  ]

  function AllItems(sections: seq<Section>): (r: seq<Item>)
    ensures forall s, it :: s in sections && it in s.items ==> it in r
  {
    if sections == [] then [] else sections[0].items + AllItems(sections[1..])
  }

  /** The captions of the items active on `pathname`, in menu order. */
  function ActiveCaptions(items: seq<Item>, pathname: string): seq<string> {
    if items == [] then []
    else (if IsActive(pathname, items[0].path) then [items[0].caption] else []) + ActiveCaptions(items[1..], pathname)
  }

  const MenuItems: seq<Item> := [Item("/dashboard", "Expenses Dashboard"), Item("/expense-reports", "Expense Reports"),
    Item("/expense-reports/new", "Create Report"), Item("/approvals", "Approvals"),
    Item("/configuration/templates", "Expense Templates"), Item("/configuration/types", "Expense Types")]

  /** The menu has four sections and these six items, in this order. */
  lemma NavigationShape()
    ensures |Navigation| == 4 && AllItems(Navigation) == MenuItems && |MenuItems| == 6
  {
    var n1, n2, n3 := Navigation[1..], Navigation[1..][1..], Navigation[1..][1..][1..];
    assert n1[1..][1..][1..] == [];
    assert AllItems(n3) == Navigation[3].items;
    assert AllItems(n2) == Navigation[2].items + Navigation[3].items;
  }

  /** The dashboard item is active exactly on `/` and `/dashboard`. */
  lemma DashboardActive(pathname: string)
    ensures IsActive(pathname, "/dashboard") <==> pathname == "/" || pathname == "/dashboard"
  {
  }

  /** Which menu paths are active on the new-report page. */
  lemma NewReportActivePaths(p: string)
    requires p == "/expense-reports/new"
    ensures !IsActive(p, "/dashboard") && IsActive(p, "/expense-reports") && IsActive(p, "/expense-reports/new")
    ensures !IsActive(p, "/approvals") && !IsActive(p, "/configuration/templates") && !IsActive(p, "/configuration/types")
  {
    assert p[..|"/expense-reports"|] == "/expense-reports";
    assert p[..|p|] == p;
    assert p[..|"/approvals"|][1] == 'e';
    assert |p| < |"/configuration/templates"|;
    assert p[..|"/configuration/types"|][1] == 'e';
  }

  /** On the new-report page two items are lit: the report list's and the new report's,
      because the list's path is a prefix of the new report's. */
  lemma NewReportLightsTwoItems()
    ensures ActiveCaptions(AllItems(Navigation), "/expense-reports/new") == ["Expense Reports", "Create Report"]
  {
    var p := "/expense-reports/new";
    var m := MenuItems;
    NavigationShape();
    NewReportActivePaths(p);
    assert ActiveCaptions(m[5..], p) == [] by { assert m[5..][1..] == []; }
    assert ActiveCaptions(m[4..], p) == [] by { assert m[4..][1..] == m[5..]; }
    assert ActiveCaptions(m[3..], p) == [] by { assert m[3..][1..] == m[4..]; }
    assert ActiveCaptions(m[2..], p) == ["Create Report"] by { assert m[2..][1..] == m[3..]; }
    assert ActiveCaptions(m[1..], p) == ["Expense Reports", "Create Report"] by { assert m[1..][1..] == m[2..]; }
    assert m[0..] == m;
  }
}
