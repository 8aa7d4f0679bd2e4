/**
 * The dashboard shell: the role filter on the sidebar, the dispatch from the
 * active tab to a view, the header title derived from the tab id and the
 * status badge of the home view's recent complaints.
 */
module Dashboard {
  import opened Wrappers
  import opened Text
  import opened Seqs
  import opened Domain
  import ComplaintHistory

  /** A sidebar entry; `roles` is absent for entries every user sees. */
  datatype SidebarItem = SidebarItem(id: string, labelText: string, roles: Option<seq<string>>)

  const DashboardItem := SidebarItem("dashboard", "Dashboard", None)
  const ReportItem := SidebarItem("user-portal", "Report Issue", None)
  const HistoryItem := SidebarItem("history", "My Complaints", None)
  const GovernmentItem := SidebarItem("government-portal", "Government Portal", Some(["government"]))
  const EmployeeItem := SidebarItem("employee-portal", "Employee Portal", Some(["employee"]))
  const HelpItem := SidebarItem("help", "Help Center", None)
  const SettingsItem := SidebarItem("settings", "Settings", None)

  /** The sidebar's entries, in display order. */
  const SidebarItems: seq<SidebarItem> :=
    [DashboardItem, ReportItem, HistoryItem, GovernmentItem, EmployeeItem, HelpItem, SettingsItem]

  /** `user?.userType || ''`: the signed-in user's type name, or "" without a user. */
  function RoleKey(user: Option<User>): (r: string)
    ensures r == "" <==> user.None?
  {
    match user
    case None => ""
    case Some(u) => u.userType.Name()
  }

  /** The sidebar filter's test: `!item.roles || item.roles.includes(key)`. */
  predicate Shown(item: SidebarItem, roleKey: string) {
    item.roles.None? || roleKey in item.roles.value
  }

  /** The sidebar entries the user sees, in declaration order. */
  function VisibleItems(user: Option<User>): seq<SidebarItem> {
    Filter(item => Shown(item, RoleKey(user)), SidebarItems)
  }

  /**
   * The visible entries are an order-preserving subsequence of the sidebar;
   * an entry is visible exactly when it has no roles or lists the user's type.
   */
  lemma VisibleItemsSpec(user: Option<User>)
    ensures IsSubsequence(VisibleItems(user), SidebarItems)
    ensures forall k :: 0 <= k < |VisibleItems(user)| ==> Shown(VisibleItems(user)[k], RoleKey(user))
    ensures forall k :: 0 <= k < |SidebarItems| && Shown(SidebarItems[k], RoleKey(user)) ==>
      SidebarItems[k] in VisibleItems(user)
  {
    var p := item => Shown(item, RoleKey(user));
    FilterIsSubsequence(p, SidebarItems);
    forall k | 0 <= k < |SidebarItems| && Shown(SidebarItems[k], RoleKey(user))
      ensures SidebarItems[k] in VisibleItems(user)
    {
      FilterKeepsEveryMatch(p, SidebarItems, k);
    }
  }

  /** The entries the sidebar renders, written as one recursive pass without a predicate argument. */
  function ShownItems(items: seq<SidebarItem>, roleKey: string): seq<SidebarItem>
    decreases |items|
  {
    if items == [] then []
    else (if Shown(items[0], roleKey) then [items[0]] else []) + ShownItems(items[1..], roleKey)
  }

  /** The one-pass reference agrees with the filter the sidebar applies. */
  lemma {:induction false} ShownItemsIsFilter(items: seq<SidebarItem>, roleKey: string)
    ensures ShownItems(items, roleKey) == Filter(item => Shown(item, roleKey), items)
    decreases |items|
  {
    if items != [] {
      ShownItemsIsFilter(items[1..], roleKey);
    }
  }

  /** One entry of the pass, at position `k`. */
  lemma ShownItemsAt(items: seq<SidebarItem>, k: nat, roleKey: string)
    requires k < |items|
    ensures ShownItems(items[k..], roleKey) ==
      (if Shown(items[k], roleKey) then [items[k]] else []) + ShownItems(items[k + 1..], roleKey)
  {
    assert items[k..][1..] == items[k + 1..];
  }

  /** The last two entries are shown to everybody. */
  lemma SidebarTail(items: seq<SidebarItem>, roleKey: string)
    requires items == SidebarItems
    ensures ShownItems(items[5..], roleKey) == [HelpItem, SettingsItem]
  {
    ShownItemsAt(items, 6, roleKey);
    assert items[7..] == [];
    ShownItemsAt(items, 5, roleKey);
  }

  /** The first three entries are shown to everybody. */
  lemma SidebarHead(items: seq<SidebarItem>, roleKey: string)
    requires items == SidebarItems
    ensures ShownItems(items, roleKey) == [DashboardItem, ReportItem, HistoryItem] + ShownItems(items[3..], roleKey)
  {
    var rest := ShownItems(items[3..], roleKey);
    ShownItemsAt(items, 2, roleKey);
    assert ShownItems(items[2..], roleKey) == [HistoryItem] + rest;
    ShownItemsAt(items, 1, roleKey);
    assert ShownItems(items[1..], roleKey) == [ReportItem, HistoryItem] + rest;
    ShownItemsAt(items, 0, roleKey);
    assert items[0..] == items;
  }

  /** The sidebar for a role key that no entry lists: the five common entries. */
  lemma SidebarWithoutPortals(items: seq<SidebarItem>, roleKey: string)
    requires items == SidebarItems
    requires roleKey == "" || roleKey == "user"
    ensures ShownItems(items, roleKey) == [DashboardItem, ReportItem, HistoryItem, HelpItem, SettingsItem]
  {
    assert !Shown(GovernmentItem, roleKey) && !Shown(EmployeeItem, roleKey);
    SidebarTail(items, roleKey);
    ShownItemsAt(items, 4, roleKey);
    ShownItemsAt(items, 3, roleKey);
    SidebarHead(items, roleKey);
  }

  /** The sidebar for the role key "government". */
  lemma SidebarForGovernment(items: seq<SidebarItem>, roleKey: string)
    requires items == SidebarItems && roleKey == "government"
    ensures ShownItems(items, roleKey) == [DashboardItem, ReportItem, HistoryItem, GovernmentItem, HelpItem, SettingsItem]
  {
    assert Shown(GovernmentItem, roleKey) && !Shown(EmployeeItem, roleKey);
    SidebarTail(items, roleKey);
    ShownItemsAt(items, 4, roleKey);
    ShownItemsAt(items, 3, roleKey);
    SidebarHead(items, roleKey);
  }

  /** The sidebar for the role key "employee". */
  lemma SidebarForEmployee(items: seq<SidebarItem>, roleKey: string)
    requires items == SidebarItems && roleKey == "employee"
    ensures ShownItems(items, roleKey) == [DashboardItem, ReportItem, HistoryItem, EmployeeItem, HelpItem, SettingsItem]
  {
    assert !Shown(GovernmentItem, roleKey) && Shown(EmployeeItem, roleKey);
    SidebarTail(items, roleKey);
    ShownItemsAt(items, 4, roleKey);
    ShownItemsAt(items, 3, roleKey);
    SidebarHead(items, roleKey);
  }

  /** Without a signed-in user only the role-less entries are shown. */
  lemma NoUserSeesCommonItems()
    ensures VisibleItems(None) == [DashboardItem, ReportItem, HistoryItem, HelpItem, SettingsItem]
  {
    SidebarWithoutPortals(SidebarItems, "");
    ShownItemsIsFilter(SidebarItems, "");
  }

  /** A citizen (type "user") sees neither portal. */
  lemma CitizenSeesNoPortal(u: User)
    requires u.userType == Citizen
    ensures VisibleItems(Some(u)) == [DashboardItem, ReportItem, HistoryItem, HelpItem, SettingsItem]
  {
    SidebarWithoutPortals(SidebarItems, "user");
    ShownItemsIsFilter(SidebarItems, "user");
  }

  /** A government user sees the government portal and not the employee portal. */
  lemma GovernmentSeesOwnPortal(u: User)
    requires u.userType == Government
    ensures VisibleItems(Some(u)) == [DashboardItem, ReportItem, HistoryItem, GovernmentItem, HelpItem, SettingsItem]
  {
    SidebarForGovernment(SidebarItems, "government");
    ShownItemsIsFilter(SidebarItems, "government");
  }

  /** An employee sees the employee portal and not the government portal. */
  lemma EmployeeSeesOwnPortal(u: User)
    requires u.userType == Employee
    ensures VisibleItems(Some(u)) == [DashboardItem, ReportItem, HistoryItem, EmployeeItem, HelpItem, SettingsItem]
  {
    SidebarForEmployee(SidebarItems, "employee");
    ShownItemsIsFilter(SidebarItems, "employee");
  }

  /** The views `renderContent` can produce. */
  datatype View = UserPortalView | GovernmentPortalView | EmployeePortalView | HistoryView | HelpView | HomeView

  /** The tab ids `renderContent` handles explicitly. */
  const HandledTabs := ["user-portal", "government-portal", "employee-portal", "history", "help"]

  /** `renderContent`: five tabs have their own view, everything else falls to the home view. */
  function RenderContent(activeTab: string): View {
    if activeTab == "user-portal" then UserPortalView
    else if activeTab == "government-portal" then GovernmentPortalView
    else if activeTab == "employee-portal" then EmployeePortalView
    else if activeTab == "history" then HistoryView
    else if activeTab == "help" then HelpView
    else HomeView
  }

  /**
   * A tab renders something other than the home view exactly when it is one
   * of the five handled tabs, and distinct handled tabs render distinct
   * views; in particular "settings" and "dashboard" render the home view.
   */
  lemma RenderContentSpec(activeTab: string)
    ensures RenderContent(activeTab) != HomeView <==> activeTab in HandledTabs
    ensures forall i, j :: 0 <= i < j < |HandledTabs| ==> RenderContent(HandledTabs[i]) != RenderContent(HandledTabs[j])
    ensures RenderContent("settings") == HomeView && RenderContent("dashboard") == HomeView
  {
  }

  /** Position `i` of `s` is where the pattern `\b\w` matches: a word character not preceded by one. */
  predicate WordStart(s: string, i: nat)
    requires i < |s|
  {
    IsWordChar(s[i]) && (i == 0 || !IsWordChar(s[i - 1]))
  }

  /**
   * The left-to-right scan of `s.replace(/\b\w/g, l => l.toUpperCase())`;
   * `afterWord` says whether the character before `s` is a word character.
   */
  function CapitalizeFrom(afterWord: bool, s: string): (r: string)
    ensures |r| == |s|
    decreases |s|
  {
    if s == [] then []
    else [if IsWordChar(s[0]) && !afterWord then UpperChar(s[0]) else s[0]] + CapitalizeFrom(IsWordChar(s[0]), s[1..])
  }

  function CapitalizeWords(s: string): (r: string)
    ensures |r| == |s|
  {
    CapitalizeFrom(false, s)
  }

  /** Scanning `s` after the prefix `before` treats each position of `s` as a position of `before + s`. */
  lemma {:induction false} CapitalizeFromShifted(before: string, s: string, i: nat)
    requires i < |s|
    ensures var afterWord := before != [] && IsWordChar(before[|before| - 1]);
      CapitalizeFrom(afterWord, s)[i] ==
        if WordStart(before + s, |before| + i) then UpperChar(s[i]) else s[i]
    decreases |s|
  {
    var whole := before + s;
    assert whole[|before| + i] == s[i];
    if i > 0 {
      CapitalizeFromShifted(before + [s[0]], s[1..], i - 1);
      assert (before + [s[0]]) + s[1..] == whole;
      assert (before + [s[0]])[|before|] == s[0];
    } else if before != [] {
      assert whole[|before| - 1] == before[|before| - 1];
    }
  }

  /** Capitalising upper-cases every word start and leaves every other character alone. */
  lemma CapitalizeWordsSpec(s: string)
    ensures forall i :: 0 <= i < |s| ==>
      CapitalizeWords(s)[i] == if WordStart(s, i) then UpperChar(s[i]) else s[i]
  {
    forall i | 0 <= i < |s|
      ensures CapitalizeWords(s)[i] == if WordStart(s, i) then UpperChar(s[i]) else s[i]
    {
      CapitalizeFromShifted([], s, i);
      assert [] + s == s;
    }
  }

  /** Capitalising changes case only, and no word start is left in lower case. */
  lemma CapitalizeWordsCaseOnly(s: string)
    ensures Lower(CapitalizeWords(s)) == Lower(s)
    ensures forall i :: 0 <= i < |s| && WordStart(s, i) ==> !IsAsciiLower(CapitalizeWords(s)[i])
  {
    var r := CapitalizeWords(s);
    CapitalizeWordsSpec(s);
    assert forall i :: 0 <= i < |s| ==> LowerChar(r[i]) == LowerChar(s[i]);
    LowerEqualIff(r, s);
  }

  /**
   * A run of word characters is capitalised at its first character only, and
   * the scan continues after it as after a word.
   */
  lemma {:induction false} CapitalizeWord(afterWord: bool, w: string, rest: string)
    requires w != [] && forall i :: 0 <= i < |w| ==> IsWordChar(w[i])
    ensures CapitalizeFrom(afterWord, w + rest) ==
      [if afterWord then w[0] else UpperChar(w[0])] + w[1..] + CapitalizeFrom(true, rest)
    decreases |w|
  {
    var s := w + rest;
    assert s[0] == w[0] && IsWordChar(w[0]);
    assert s[1..] == w[1..] + rest;
    var head := if afterWord then w[0] else UpperChar(w[0]);
    assert CapitalizeFrom(afterWord, s) == [head] + CapitalizeFrom(true, w[1..] + rest);
    if |w| > 1 {
      CapitalizeWord(true, w[1..], rest);
      assert [w[1..][0]] + w[1..][1..] == w[1..];
    } else {
      assert w[1..] + rest == rest;
    }
  }

  /** Upper-casing a character does not change whether it is a word character. */
  lemma UpperCharKeepsWordChar(c: char)
    ensures IsWordChar(UpperChar(c)) == IsWordChar(c)
  {
  }

  /** Capitalising an already capitalised title changes nothing. */
  lemma CapitalizeWordsIdempotent(s: string)
    ensures CapitalizeWords(CapitalizeWords(s)) == CapitalizeWords(s)
  {
    var r := CapitalizeWords(s);
    CapitalizeWordsSpec(s);
    CapitalizeWordsSpec(r);
    forall i | 0 <= i < |s|
      ensures WordStart(r, i) == WordStart(s, i)
      ensures CapitalizeWords(r)[i] == r[i]
    {
      UpperCharKeepsWordChar(s[i]);
      if i > 0 {
        UpperCharKeepsWordChar(s[i - 1]);
      }
    }
  }

  /** The header: `activeTab.replace('-', ' ')` followed by word capitalisation. */
  function HeaderTitle(activeTab: string): (r: string)
    ensures |r| == |activeTab|
  {
    CapitalizeWords(ReplaceFirst(activeTab, '-', ' '))
  }

  /** Two words joined by a space are each capitalised at their first character. */
  lemma CapitalizeTwoWords(w1: string, w2: string)
    requires w1 != [] && forall i :: 0 <= i < |w1| ==> IsWordChar(w1[i])
    requires w2 != [] && forall i :: 0 <= i < |w2| ==> IsWordChar(w2[i])
    ensures CapitalizeWords(w1 + " " + w2) ==
      [UpperChar(w1[0])] + w1[1..] + " " + [UpperChar(w2[0])] + w2[1..]
  {
    assert w1 + " " + w2 == w1 + (" " + w2);
    CapitalizeWord(false, w1, " " + w2);
    assert (" " + w2)[1..] == w2;
    CapitalizeWord(false, w2, []);
    assert w2 + [] == w2;
  }

  /** A run of word characters holds no hyphen. */
  lemma WordRunHasNoHyphen(w: string)
    requires forall i :: 0 <= i < |w| ==> IsWordChar(w[i])
    ensures '-' !in w
  {
    assert forall i :: 0 <= i < |w| ==> w[i] != '-';
  }

  /**
   * A tab id made of two words joined by a hyphen, such as "user-portal",
   * gets both words capitalised and the hyphen turned into a space.
   */
  lemma HyphenatedHeader(w1: string, w2: string)
    requires w1 != [] && forall i :: 0 <= i < |w1| ==> IsWordChar(w1[i])
    requires w2 != [] && forall i :: 0 <= i < |w2| ==> IsWordChar(w2[i])
    ensures HeaderTitle(w1 + "-" + w2) == [UpperChar(w1[0])] + w1[1..] + " " + [UpperChar(w2[0])] + w2[1..]
  {
    var tab := w1 + "-" + w2;
    WordRunHasNoHyphen(w1);
    assert tab[|w1|] == '-' && tab[..|w1|] == w1;
    ReplaceFirstSpec(tab, '-', ' ');
    var k := IndexOf(tab, '-');
    assert k <= |w1| by {
      assert tab[..k + 1][k] == '-';
    }
    assert k == |w1|;
    assert ReplaceFirst(tab, '-', ' ') == w1 + " " + w2 by {
      assert tab[k + 1..] == w2;
    }
    CapitalizeTwoWords(w1, w2);
  }

  /** The header of the "Report Issue" entry, whose tab id is "user-portal". */
  lemma UserPortalHeader(tab: string)
    requires tab == "user-portal"
    ensures HeaderTitle(tab) == "User Portal"
  {
    var w1, w2 := "user", "portal";
    assert forall i :: 0 <= i < |w1| ==> IsWordChar(w1[i]);
    assert forall i :: 0 <= i < |w2| ==> IsWordChar(w2[i]);
    HyphenatedHeader(w1, w2);
    assert w1 + "-" + w2 == tab;
    assert UpperChar(w1[0]) == 'U' && UpperChar(w2[0]) == 'P';
  }

  /** Only the first hyphen becomes a space; a later one stays and still separates words. */
  lemma HeaderTitleKeepsLaterHyphens(tab: string)
    requires tab == "a-b-c"
    ensures HeaderTitle(tab) == "A B-C"
  {
    assert ReplaceFirst(tab, '-', ' ') == "a" + " b-c";
    CapitalizeWord(false, "a", " b-c");
    CapitalizeWord(false, "b", "-c");
    CapitalizeWord(false, "c", "");
    assert "c" + "" == "c";
  }

  /** The home view's `getStatusColor`: there is no "assigned" case. */
  function DashboardStatusColor(status: string): string {
    if status == "pending" then ComplaintHistory.PendingStyle
    else if status == "in-progress" then ComplaintHistory.InProgressStyle
    else if status == "resolved" then ComplaintHistory.ResolvedStyle
    else ComplaintHistory.GrayStyle
  }

  /**
   * The home view's badge agrees with the history view's on every status
   * except "assigned", which the home view shows in gray.
   */
  lemma DashboardStatusColorSpec(s: Status)
    ensures s != Assigned ==> DashboardStatusColor(s.Name()) == ComplaintHistory.StatusColor(s.Name())
    ensures DashboardStatusColor(Assigned.Name()) == ComplaintHistory.GrayStyle
    ensures DashboardStatusColor(Assigned.Name()) != ComplaintHistory.StatusColor(Assigned.Name())
  {
    ComplaintHistory.StatusColorSpec(Assigned.Name());
  }

  /** The dashboard's own state: the active tab and whether the sidebar is expanded. */
  class DashboardState {
    var activeTab: string
    var sidebarOpen: bool

    constructor()
      ensures activeTab == "dashboard" && sidebarOpen
    {
      activeTab := "dashboard";
      sidebarOpen := true;
    }

    /** A sidebar button's click handler. */
    method SelectTab(id: string)
      modifies this
      ensures activeTab == id && sidebarOpen == old(sidebarOpen)
    {
      activeTab := id;
    }

    /** The menu button: collapse or expand the sidebar. */
    method ToggleSidebar()
      modifies this
      ensures sidebarOpen == !old(sidebarOpen) && activeTab == old(activeTab)
    {
      sidebarOpen := !sidebarOpen;
    }
  }
}
