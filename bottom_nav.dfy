/** The bottom navigation bar: four items, which one is highlighted for the current path,
    and their translated labels. */
module BottomNav {
  import opened Wrappers
  import opened Json
  import opened LanguageContext

  datatype NavItem = NavItem(id: string, labelKey: string, path: string)

  const NavItems: seq<NavItem> := [
    NavItem("home", "navHome", "/home"),
    NavItem("community", "navCommunity", "/community"),
    NavItem("sos", "navSOS", "/sos"),
    NavItem("profile", "navProfile", "/user-profile")
  ]

  /** The `isActive` test as written, with its three clauses. */
  predicate IsActive(item: NavItem, currentPath: string) {
    || currentPath == item.path
    || (item.id == "home" && currentPath == "/home")
    || (item.id == "sos" && currentPath == "/sos-active")
  }

  /** The index of the highlighted item, if any. */
  function ActiveIndex(currentPath: string): (r: Option<nat>)
    ensures r.Some? ==> r.value < |NavItems| && IsActive(NavItems[r.value], currentPath)
    ensures r.None? ==> forall i :: 0 <= i < |NavItems| ==> !IsActive(NavItems[i], currentPath)
  {
    if currentPath == "/home" then Some(0)
    else if currentPath == "/community" then Some(1)
    else if currentPath == "/sos" || currentPath == "/sos-active" then Some(2)
    else if currentPath == "/user-profile" then Some(3)
    else None
  }

  /** The home clause adds nothing: for every item the test is path equality, plus
      '/sos-active' for the SOS item. */
  lemma HomeClauseRedundant(currentPath: string)
    ensures forall i :: 0 <= i < |NavItems| ==>
      (IsActive(NavItems[i], currentPath) <==>
        currentPath == NavItems[i].path || (NavItems[i].id == "sos" && currentPath == "/sos-active"))
  {
  }

  /** Whatever the path, at most one item is highlighted, and it is the one
      `ActiveIndex` names; '/sos-active' highlights SOS. */
  lemma AtMostOneActive(currentPath: string)
    ensures forall i, j ::
              (0 <= i < |NavItems| && 0 <= j < |NavItems|
               && IsActive(NavItems[i], currentPath) && IsActive(NavItems[j], currentPath)) ==> i == j
    ensures forall i :: 0 <= i < |NavItems| && IsActive(NavItems[i], currentPath) ==> ActiveIndex(currentPath) == Some(i)
    ensures ActiveIndex("/sos-active") == Some(2)
  {
  }

  /** The label under an item: `t(item.labelKey)`. */
  function Label(tables: map<string, Table>, language: string, item: NavItem): (r: string)
    ensures r == Lookup(tables, language, item.labelKey)
    ensures item in NavItems ==> r != ""
  {
    NoParamsAndFallback(tables, language, item.labelKey, []);
    Translate(tables, language, item.labelKey, [])
  }

  /** The labels in both languages, from the tables' entries. */
  lemma LabelExamples()
    ensures Label(Excerpt, "en", NavItems[0]) == "Home"
    ensures Label(Excerpt, "hi", NavItems[3]) == "प्रोफाइल"
  {
  }

  /** Pressing an item goes to its path. */
  method Press(item: NavItem) returns (route: string)
    ensures route == item.path
  {
    route := item.path;
  }
}
