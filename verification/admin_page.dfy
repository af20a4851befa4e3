/** The admin page: six tabs, the panel shown for the active one, and the
    joined-ago label. */
module AdminPage {
  import opened TimeAgo

  datatype Tab = Tab(id: string, name: string)

  /** `tabs`, in display order; the icons are not modelled. */
  const Tabs: seq<Tab> := [
    Tab("dashboard", "Dashboard"), Tab("users", "Users"), Tab("cohorts", "Cohorts"),
    Tab("courses", "Courses"), Tab("analytics", "Analytics"), Tab("settings", "Settings")
  ]

  /** `useState('dashboard')`. */
  const InitialTab: string := "dashboard"

  /** What the content area shows: one of the three rendered panels or a placeholder
      with its text. */
  datatype Panel = DashboardPanel | UsersPanel | CohortsPanel | ComingSoon(text: string)

  predicate IsTabId(id: string) {
    exists i :: 0 <= i < |Tabs| && Tabs[i].id == id
  }

  /** `renderContent`: the panel of the active tab, the dashboard for any other value. */
  function RenderContent(activeTab: string): (p: Panel)
    ensures !IsTabId(activeTab) ==> p == DashboardPanel
  {
    assert Tabs[0].id == "dashboard" && Tabs[1].id == "users" && Tabs[2].id == "cohorts";
    assert Tabs[3].id == "courses" && Tabs[4].id == "analytics" && Tabs[5].id == "settings";
    if activeTab == "dashboard" then DashboardPanel
    else if activeTab == "users" then UsersPanel
    else if activeTab == "cohorts" then CohortsPanel
    else if activeTab == "courses" then ComingSoon("Course management coming soon...")
    else if activeTab == "analytics" then ComingSoon("Advanced analytics coming soon...")
    else if activeTab == "settings" then ComingSoon("System settings coming soon...")
    else DashboardPanel
  }

  /** A tab button is highlighted when its id is the active tab. */
  predicate Highlighted(activeTab: string, tab: Tab) {
    activeTab == tab.id
  }

  /** A tab button's click makes its id the active tab. */
  function ClickTab(tab: Tab): (activeTab: string)
    ensures Highlighted(activeTab, tab)
  {
    tab.id
  }

  /** Clicking a tab highlights that tab and no other, and every tab shows its own
      panel: no two tabs render the same content. */
  lemma ClickShowsOwnPanel(i: nat)
    requires i < |Tabs|
    ensures forall j :: 0 <= j < |Tabs| ==> (Highlighted(ClickTab(Tabs[i]), Tabs[j]) <==> i == j)
    ensures forall j :: 0 <= j < |Tabs| ==> (RenderContent(ClickTab(Tabs[i])) == RenderContent(Tabs[j].id) <==> i == j)
  {
  }

  /** The page opens on the first tab, highlighted, showing the dashboard; a value
      that is no tab id also shows the dashboard but highlights nothing. */
  lemma InitialAndUnknownTabs(activeTab: string)
    ensures InitialTab == Tabs[0].id && RenderContent(InitialTab) == DashboardPanel
    ensures !IsTabId(activeTab) ==>
      RenderContent(activeTab) == RenderContent(InitialTab) &&
      forall j :: 0 <= j < |Tabs| ==> !Highlighted(activeTab, Tabs[j])
  {
  }

  const JustNow: string := "Just now"

  /** The page's `timeAgo`: "Just now" exactly when less than an hour has passed. */
  function JoinedAgo(nowMs: int, thenMs: int): (r: string)
    ensures r == JustNow <==> nowMs - thenMs < HourMs
  {
    RecentIff(nowMs, thenMs, JustNow);
    Ago(nowMs, thenMs, JustNow)
  }
}
