/**
 * The navigation of src/components/AppSidebar.tsx: the four menu entries and which of them is
 * highlighted for the current path.
 */
module AppSidebar {
  import opened Js

  datatype MenuItem = MenuItem(title: string, url: string)

  /** `menuItems`: Dashboard, Report History, Analytics and Profile, in that order. */
  function MenuItems(): (items: seq<MenuItem>)
    ensures |items| == 4
  {
    [MenuItem("Dashboard", "/"), MenuItem("Report History", "/reports"),
     MenuItem("Analytics", "/analytics"), MenuItem("Profile", "/profile")]
  }

  /** `isActive(path)`: the dashboard also matches a bare query string, any other entry only its exact URL. */
  predicate IsActive(currentPath: string, path: string) {
    if path == "/" then currentPath == "/" || StartsWith(currentPath, "/?")
    else currentPath == path
  }

  /** The dashboard entry is active exactly on "/" and on "/?..." . */
  lemma {:induction false} DashboardActive(currentPath: string)
    ensures IsActive(currentPath, MenuItems()[0].url) <==> currentPath == "/" || StartsWith(currentPath, "/?")
    ensures StartsWith(currentPath, "/?") ==> IsActive(currentPath, "/")
  {
  }

  /**
   * Every other entry is active exactly on its own URL, so a sub-path such as "/reports/x" does not
   * activate it, and no other entry's URL activates the dashboard.
   */
  lemma {:induction false} OtherEntriesMatchExactly(currentPath: string, i: int)
    requires 1 <= i < 4
    ensures IsActive(currentPath, MenuItems()[i].url) <==> currentPath == MenuItems()[i].url
    ensures !IsActive(MenuItems()[i].url + "/x", MenuItems()[i].url)
    ensures !IsActive(MenuItems()[i].url, "/")
  {
    var url := MenuItems()[i].url;
    assert |url + "/x"| != |url|;
    assert url[1] != '?';
  }

  /** The menu entries the current path activates. */
  function ActiveCount(currentPath: string, items: seq<MenuItem>): (n: nat)
    ensures n <= |items|
  {
    if items == [] then 0
    else (if IsActive(currentPath, items[0].url) then 1 else 0) + ActiveCount(currentPath, items[1..])
  }

  /** Whatever the current path, at most one menu entry is highlighted. */
  lemma {:induction false} AtMostOneActive(currentPath: string)
    ensures ActiveCount(currentPath, MenuItems()) <= 1
    ensures forall i, j :: 0 <= i < j < 4 ==>
      !(IsActive(currentPath, MenuItems()[i].url) && IsActive(currentPath, MenuItems()[j].url))
  {
    var items := MenuItems();
    ExactUrlIsNotDashboard(currentPath);
    var a, b, c, d := items[1..], items[2..], items[3..], items[4..];
    assert a[1..] == b && b[1..] == c && c[1..] == d && d == [];
    assert ActiveCount(currentPath, c) == if currentPath == "/profile" then 1 else 0;
    assert ActiveCount(currentPath, b) == (if currentPath == "/analytics" then 1 else 0) + ActiveCount(currentPath, c);
    assert ActiveCount(currentPath, a) == (if currentPath == "/reports" then 1 else 0) + ActiveCount(currentPath, b);
    assert ActiveCount(currentPath, items) ==
      (if IsActive(currentPath, "/") then 1 else 0) + (if currentPath == "/reports" then 1 else 0)
      + (if currentPath == "/analytics" then 1 else 0) + (if currentPath == "/profile" then 1 else 0);
  }

  /** A path that activates the dashboard is none of the other URLs. */
  lemma {:induction false} ExactUrlIsNotDashboard(currentPath: string)
    ensures IsActive(currentPath, "/") ==>
      currentPath != "/reports" && currentPath != "/analytics" && currentPath != "/profile"
  {
    if StartsWith(currentPath, "/?") {
      assert currentPath[1] == '?';
    }
  }
}
