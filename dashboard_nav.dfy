/**
 * The rules of the dashboard shell (frontend/app/dashboard/layout.tsx) that
 * can be stated apart from its markup: which navigation entry is
 * highlighted, what a badge shows, and the sidebar flags the buttons flip.
 */
module DashboardNav {
  import opened Wrappers
  import opened Strings

  const DashboardHref: string := "/dashboard"

  datatype NavItem = NavItem(caption: string, description: string, href: string, badge: Option<int>)
  datatype NavSection = NavSection(title: string, items: seq<NavItem>)

  /** The navigation table of the sidebar. No entry carries a badge. */
  const Navigation: seq<NavSection> := [
    NavSection("Principal", [
      NavItem("Tableau de bord", "Vue d'ensemble", "/dashboard", None),
      NavItem("Mon entreprise", "Gérer mon entreprise", "/dashboard/company", None),
      NavItem("Mes besoins", "Besoins et demandes", "/dashboard/needs", None),
      NavItem("Domaines", "Secteurs d'activité", "/dashboard/domaines", None)]),
    NavSection("Partenariats", [
      NavItem("Opportunités", "Opportunités business", "/dashboard/opportunities", None),
      NavItem("Mes partenaires", "Réseau de partenaires", "/dashboard/partners", None),
      NavItem("Messages", "Messagerie", "/dashboard/messages", None)]),
    NavSection("Gestion", [
      NavItem("Documents", "Documents partagés", "/dashboard/documents", None),
      NavItem("Offres & Services", "Catalogue d'offres", "/dashboard/offers", None),
      NavItem("Statistiques", "Analytiques", "/dashboard/stats", None),
      NavItem("Paramètres", "Préférences", "/dashboard/settings", None)])
  ]

  /** Every navigation target, section by section. */
  const NavHrefs: seq<string> := [
    "/dashboard", "/dashboard/company", "/dashboard/needs", "/dashboard/domaines",
    "/dashboard/opportunities", "/dashboard/partners", "/dashboard/messages",
    "/dashboard/documents", "/dashboard/offers", "/dashboard/stats", "/dashboard/settings"]

  /**
   * `isActive(href)` for the current pathname (`usePathname()`, which may be
   * null): the dashboard home only on an exact match, every other entry on a
   * prefix match.
   */
  function IsActive(pathname: Option<string>, href: string): bool {
    if pathname.None? || pathname.value == "" then false
    else if href == DashboardHref then pathname.value == href
    else StartsWith(pathname.value, href)
  }

  /** Without a pathname nothing is highlighted. */
  lemma NoPathnameNothingActive(href: string)
    ensures !IsActive(None, href) && !IsActive(Some(""), href)
  {
  }

  /** The dashboard home is highlighted only on `/dashboard` itself. */
  lemma DashboardExactOnly(pathname: Option<string>)
    ensures IsActive(pathname, "/dashboard") <==> pathname == Some("/dashboard")
  {
  }

  /** Every other entry is highlighted exactly on the paths that start with its target. */
  lemma OtherEntriesByPrefix(p: string, href: string)
    requires href != DashboardHref && p != ""
    ensures IsActive(Some(p), href) <==> StartsWith(p, href)
  {
  }

  /** Of two prefixes of one string, the shorter is a prefix of the longer. */
  lemma PrefixesNest(p: string, a: string, b: string)
    requires StartsWith(p, a) && StartsWith(p, b) && |a| <= |b|
    ensures StartsWith(b, a)
  {
    assert b[..|a|] == p[..|b|][..|a|];
  }

  /** A string agrees with each of its prefixes on every slice inside the prefix. */
  lemma PrefixAgrees(s: string, prefix: string, lo: nat, hi: nat)
    ensures StartsWith(s, prefix) && lo <= hi <= |prefix| ==> s[lo..hi] == prefix[lo..hi]
  {
    if StartsWith(s, prefix) && lo <= hi <= |prefix| {
      forall k | lo <= k < hi ensures s[k] == prefix[k] {
        assert s[..|prefix|][k] == s[k];
      }
    }
  }

  /** No navigation target other than the home is a prefix of another one. */
  lemma NavHrefsPrefixFree(i: nat, j: nat)
    requires 0 < i < |NavHrefs| && 0 < j < |NavHrefs| && i != j
    ensures !StartsWith(NavHrefs[j], NavHrefs[i])
  {
    var keys := ["", "com", "nee", "dom", "opp", "par", "mes", "doc", "off", "sta", "set"];
    assert forall k :: 0 < k < |NavHrefs| ==> |NavHrefs[k]| >= 14 && NavHrefs[k][11..14] == keys[k];
    PrefixAgrees(NavHrefs[j], NavHrefs[i], 11, 14);
  }

  /** The targets of the entries of some sections, in order. */
  function SectionHrefs(sections: seq<NavSection>): seq<string>
    decreases |sections|
  {
    if sections == [] then []
    else seq(|sections[0].items|, k requires 0 <= k < |sections[0].items| => sections[0].items[k].href)
         + SectionHrefs(sections[1..])
  }

  /** `NavHrefs` is the navigation table's list of targets. */
  lemma NavHrefsMatchNavigation()
    ensures SectionHrefs(Navigation) == NavHrefs
  {
  }

  /** On any page at most one sidebar entry is highlighted. */
  lemma AtMostOneActive(pathname: Option<string>, i: nat, j: nat)
    requires i < |NavHrefs| && j < |NavHrefs| && i != j
    ensures !(IsActive(pathname, NavHrefs[i]) && IsActive(pathname, NavHrefs[j]))
  {
    if pathname.Some? && pathname.value != "" && i > 0 && j > 0
       && IsActive(pathname, NavHrefs[i]) && IsActive(pathname, NavHrefs[j]) {
      if |NavHrefs[i]| <= |NavHrefs[j]| {
        PrefixesNest(pathname.value, NavHrefs[i], NavHrefs[j]);
        NavHrefsPrefixFree(i, j);
      } else {
        PrefixesNest(pathname.value, NavHrefs[j], NavHrefs[i]);
        NavHrefsPrefixFree(j, i);
      }
    }
  }

  // ------------------------------------------------------------------ badges

  /** What a badge expression puts on the screen next to an entry's icon. */
  datatype Rendered = NothingRendered | StrayText(text: string) | Badge(caption: string)

  /** The badge text: "99+" above 99, otherwise the number. */
  function BadgeLabel(badge: int): string {
    if badge > 99 then "99+" else IntToDecimal(badge)
  }

  /** A shown badge reads "99+" above 99 and otherwise gives back its own number. */
  lemma BadgeLabelMeaning(badge: int)
    requires badge > 0
    ensures BadgeLabel(badge) == "99+" <==> badge > 99
    ensures badge <= 99 ==> ParseDecimal(BadgeLabel(badge)) == Some(badge)
  {
    if badge <= 99 {
      DecimalRoundTrip(badge);
      var s := BadgeLabel(badge);
      assert !IsDigit('+');
      assert |s| >= 3 ==> IsDigit(s[2]);
    }
  }

  /**
   * `{item.badge && item.badge > 0 && (<span>…</span>)}` as written. In
   * JavaScript `0 && …` evaluates to `0`, and React renders the number 0 as
   * text, so a badge of 0 leaves a stray "0" beside the icon; `undefined` and
   * `false` render nothing.
   */
  function BadgeAsWritten(badge: Option<int>): Rendered {
    if badge.None? then NothingRendered
    else if badge.value == 0 then StrayText("0")
    else if badge.value > 0 then Badge(BadgeLabel(badge.value))
    else NothingRendered
  }

  /** A badge of 0 puts the text "0" on the screen. */
  lemma BadgeZeroShowsStrayZero()
    ensures BadgeAsWritten(Some(0)) == StrayText("0")
  {
  }

  /** The evidently intended rule: a badge when the count is defined and positive, otherwise nothing. */
  function BadgeIntended(badge: Option<int>): (r: Rendered)
    ensures r != NothingRendered <==> badge.Some? && badge.value > 0
    ensures !r.StrayText?
  {
    if badge.Some? && badge.value > 0 then Badge(BadgeLabel(badge.value)) else NothingRendered
  }

  /** The rule as written and the intended rule differ only on a badge of 0. */
  lemma BadgeRulesAgreeExceptZero(badge: Option<int>)
    ensures BadgeAsWritten(badge) == BadgeIntended(badge) <==> badge != Some(0)
  {
  }

  // ----------------------------------------------------------- sidebar state

  /**
   * The layout's state: the mobile sidebar, the collapsed desktop sidebar,
   * and the loading flag. `setAuthLoading` is never called, so the flag keeps
   * its initial value and the layout shows its loading screen.
   */
  class SidebarState {
    var sidebarOpen: bool
    var sidebarCollapsed: bool
    var authLoading: bool

    constructor ()
      ensures !sidebarOpen && !sidebarCollapsed && authLoading
    {
      sidebarOpen, sidebarCollapsed, authLoading := false, false, true;
    }

    /** Whether the shell (rather than the loading screen) is rendered. */
    predicate ShowsShell()
      reads this
    {
      !authLoading
    }

    /** The collapse button: flips `sidebarCollapsed`, nothing else. */
    method ToggleCollapsed()
      modifies this`sidebarCollapsed
      ensures sidebarCollapsed == !old(sidebarCollapsed)
    {
      sidebarCollapsed := !sidebarCollapsed;
    }

    /** The top bar's menu button. */
    method OpenSidebar()
      modifies this`sidebarOpen
      ensures sidebarOpen
    {
      sidebarOpen := true;
    }

    /** The overlay, the close button and every link of the mobile sidebar. */
    method CloseSidebar()
      modifies this`sidebarOpen
      ensures !sidebarOpen
    {
      sidebarOpen := false;
    }
  }
}
