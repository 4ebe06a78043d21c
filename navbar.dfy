/**
 * The shared navigation bar of `js/enhanced-navbar.js`: the page name taken
 * from the location, which links are marked active, arrow-key focus movement,
 * the notification badge, and the mobile menu and search toggles.
 */
module Navbar {
  import opened Common
  import opened Strings

  /** `getCurrentPage`: the last path segment (`index.html` when empty) with its first ".html" removed. */
  function GetCurrentPage(path: string): (r: string)
    ensures '/' !in r
    ensures !Contains(LastSegment(path), ".html") && LastSegment(path) != [] ==> r == LastSegment(path)
  {
    var segment := LastSegment(path);
    var page := if segment == [] then "index.html" else segment;
    var r := ReplaceFirst(page, ".html", "");
    assert '/' !in r by {
      assert '/' !in "index.html";
      ReplaceFirstByEmptyKeepsOut(page, ".html", '/');
    }
    r
  }

  /** Removing ".html" from `name.html` gives `name` back when `name` has no dot. */
  lemma StripHtmlOfPlainName(name: string)
    requires '.' !in name
    ensures ReplaceFirst(name + ".html", ".html", "") == name
  {
    var s := name + ".html";
    assert OccursAt(s, ".html", |name|);
    var i := IndexOf(s, ".html").value;
    forall j | 0 <= j < |name|
      ensures !OccursAt(s, ".html", j)
    {
      assert name[j] in name;
      assert s[j..j + 5][0] == s[j] == name[j];
    }
    assert i == |name|;
    assert s[..i] == name;
  }

  /** A page `dir/name.html` is the page `name`. */
  lemma CurrentPageOfHtmlFile(dir: string, name: string)
    requires '/' !in name && '.' !in name
    ensures GetCurrentPage(dir + "/" + name + ".html") == name
  {
    var file := name + ".html";
    assert dir + "/" + name + ".html" == dir + "/" + file;
    assert '/' !in file by {
      assert forall k :: 0 <= k < |file| ==> file[k] in name || file[k] in ".html";
    }
    LastSegmentAppend(dir, file);
    StripHtmlOfPlainName(name);
  }

  /** A location that ends in `/` (or is empty) is the index page. */
  lemma DirectoryIsIndex(path: string)
    requires path == [] || path[|path| - 1] == '/'
    ensures GetCurrentPage(path) == "index"
  {
    assert "index" + ".html" == "index.html";
    StripHtmlOfPlainName("index");
  }

  /** A link's page: its `href` without the first ".html" and then without the first "./". */
  function LinkPage(href: string): string
  {
    ReplaceFirst(ReplaceFirst(href, ".html", ""), "./", "")
  }

  /** `setupActiveStates`' test for one link: its page is the current one, or "" and "index" on the index page. */
  predicate IsActiveLink(href: string, currentPage: string)
  {
    var linkPage := LinkPage(href);
    linkPage == currentPage || (currentPage == "index" && (linkPage == [] || linkPage == "index"))
  }

  /** The link `name.html` of a plain page name is active exactly on that page, or as "" nowhere but the index. */
  lemma {:induction false} HtmlLinkActiveIff(name: string, currentPage: string)
    requires '/' !in name && '.' !in name
    ensures IsActiveLink(name + ".html", currentPage) <==>
      name == currentPage || (currentPage == "index" && name == [])
  {
    StripHtmlOfPlainName(name);
    forall j | 0 <= j < |name|
      ensures !OccursAt(name, "./", j)
    {
      assert name[j] in name;
      if j + 2 <= |name| {
        assert name[j..j + 2][0] == name[j];
      }
    }
  }

  /** On `dir/name.html` the link `link.html` is active exactly when it names that page. */
  lemma OwnLinkActive(dir: string, name: string, link: string)
    requires '/' !in name && '.' !in name && name != []
    requires '/' !in link && '.' !in link && link != []
    ensures IsActiveLink(link + ".html", GetCurrentPage(dir + "/" + name + ".html")) <==> link == name
  {
    CurrentPageOfHtmlFile(dir, name);
    HtmlLinkActiveIff(link, name);
  }

  /** The links `./` and `index.html` are active on the site's root. */
  lemma RootLinksActiveAtRoot(dir: string)
    ensures IsActiveLink("./", GetCurrentPage(dir + "/"))
    ensures IsActiveLink("index.html", GetCurrentPage(dir + "/"))
  {
    var root := dir + "/";
    DirectoryIsIndex(root);
    assert OccursAt("./", "./", 0);
    assert !Contains("./", ".html");
    assert "index" + ".html" == "index.html";
    HtmlLinkActiveIff("index", "index");
  }

  /** The activity flag of each link, in order (`setupActiveStates`). */
  function ActiveLinks(hrefs: seq<string>, currentPage: string): (r: seq<bool>)
    ensures |r| == |hrefs|
    ensures forall i :: 0 <= i < |hrefs| ==> (r[i] <==> IsActiveLink(hrefs[i], currentPage))
  {
    seq(|hrefs|, i requires 0 <= i < |hrefs| => IsActiveLink(hrefs[i], currentPage))
  }

  datatype ArrowKey = ArrowRight | ArrowLeft

  /**
   * `setupKeyboardNavigation`: the element focused after an arrow key on
   * element `index` of `n`, `(index + direction + n) % n`; the operands are
   * never negative, so JavaScript's `%` agrees with Dafny's.
   */
  function NextFocus(index: nat, key: ArrowKey, n: nat): (r: nat)
    requires index < n
    ensures r < n
    ensures key == ArrowRight ==> r == (if index + 1 == n then 0 else index + 1)
    ensures key == ArrowLeft ==> r == (if index == 0 then n - 1 else index - 1)
  {
    var direction := if key == ArrowRight then 1 else -1;
    var r := (index + direction + n) % n;
    if key == ArrowRight && index + 1 == n then
      ModUnique(index + direction + n, n, 2, 0);
      r
    else if key == ArrowRight then
      ModUnique(index + direction + n, n, 1, index + 1);
      r
    else if index == 0 then
      ModUnique(index + direction + n, n, 0, n - 1);
      r
    else
      ModUnique(index + direction + n, n, 1, index - 1);
      r
  }

  /** The badge's text: the count, capped at "99+". */
  function BadgeText(count: int): (text: string)
    requires count > 0
    ensures count > 99 <==> text == "99+"
    ensures count <= 99 ==>
      1 <= |text| <= 2 && (forall i :: 0 <= i < |text| ==> IsDigit(text[i])) && DigitsValue(text) == count
  {
    if count > 99 then "99+"
    else
      NatToStringRoundTrip(count);
      var text := NatToString(count);
      assert count >= 10 ==> NatToString(count / 10) == [DigitChar(count / 10)];
      text
  }

  /** The `.notification-badge` element of the page: its text and whether it is displayed. */
  datatype BadgeView = BadgeView(text: string, visible: bool)

  /**
   * The badge after `updateNotificationBadge(count)`.  A new badge only stays
   * in the page when there is a user menu to append it to.
   */
  function BadgeAfter(badge: Option<BadgeView>, count: int, hasUserMenu: bool): (r: Option<BadgeView>)
    ensures count > 0 && (badge.Some? || hasUserMenu) ==> r == Some(BadgeView(BadgeText(count), true))
    ensures count > 0 && badge.None? && !hasUserMenu ==> r.None?
    ensures count <= 0 ==> r.Some? == badge.Some? && (r.Some? ==> !r.value.visible && r.value.text == badge.value.text)
    ensures r.Some? && r.value.visible ==> count > 0
  {
    if count > 0 then
      if badge.Some? || hasUserMenu then Some(BadgeView(BadgeText(count), true)) else None
    else if badge.Some? then Some(badge.value.(visible := false))
    else None
  }

  /** What the menu button and the page show for a menu state. */
  datatype MenuChrome = MenuChrome(icon: string, ariaExpanded: bool, ariaLabel: string, bodyOverflow: string)

  function ChromeFor(open: bool): (c: MenuChrome)
    ensures c.ariaExpanded == open
    ensures open <==> c.icon == "x"
    ensures open <==> c.bodyOverflow == "hidden"
  {
    if open then MenuChrome("x", true, "Close menu", "hidden")
    else MenuChrome("menu", false, "Open menu", "")
  }

  class EnhancedNavbar {
    var mobileMenuOpen: bool
    var searchExpanded: bool
    var currentPage: string
    var notificationCount: int
    var chrome: MenuChrome
    var badge: Option<BadgeView>

    /** The menu button shows the menu's state. */
    predicate ChromeInSync()
      reads this
    {
      chrome == ChromeFor(mobileMenuOpen)
    }

    /**
     * `new EnhancedNavbar()` on the page at `path`, whose markup has the menu
     * button as `pageChrome` and the badge `pageBadge`; `init` ends with
     * `updateNotificationBadge(0)`.
     */
    constructor(path: string, pageChrome: MenuChrome, pageBadge: Option<BadgeView>, hasUserMenu: bool)
      ensures !mobileMenuOpen && !searchExpanded
      ensures currentPage == GetCurrentPage(path)
      ensures notificationCount == 0
      ensures chrome == pageChrome
      ensures badge == BadgeAfter(pageBadge, 0, hasUserMenu)
      ensures badge.Some? ==> !badge.value.visible
    {
      mobileMenuOpen := false;
      searchExpanded := false;
      currentPage := GetCurrentPage(path);
      notificationCount := 0;
      chrome := pageChrome;
      badge := BadgeAfter(pageBadge, 0, hasUserMenu);
    }

    /** `toggleMobileMenu`: flips the menu and redraws its button. */
    method ToggleMobileMenu()
      modifies this
      ensures mobileMenuOpen == !old(mobileMenuOpen)
      ensures chrome == ChromeFor(mobileMenuOpen) && ChromeInSync()
      ensures searchExpanded == old(searchExpanded) && currentPage == old(currentPage)
      ensures notificationCount == old(notificationCount) && badge == old(badge)
    {
      mobileMenuOpen := !mobileMenuOpen;
      chrome := ChromeFor(mobileMenuOpen);
    }

    /** `closeMobileMenu`: nothing happens when the menu is closed already. */
    method CloseMobileMenu()
      modifies this
      ensures !mobileMenuOpen
      ensures !old(mobileMenuOpen) ==> chrome == old(chrome)
      ensures old(mobileMenuOpen) ==> chrome == ChromeFor(false)
      ensures old(ChromeInSync()) ==> ChromeInSync()
      ensures searchExpanded == old(searchExpanded) && currentPage == old(currentPage)
      ensures notificationCount == old(notificationCount) && badge == old(badge)
    {
      if !mobileMenuOpen {
        return;
      }
      mobileMenuOpen := false;
      chrome := ChromeFor(false);
    }

    /** `toggleMobileSearch`: flips the search field's expansion. */
    method ToggleMobileSearch()
      modifies this
      ensures searchExpanded == !old(searchExpanded)
      ensures mobileMenuOpen == old(mobileMenuOpen) && chrome == old(chrome) && currentPage == old(currentPage)
      ensures notificationCount == old(notificationCount) && badge == old(badge)
    {
      searchExpanded := !searchExpanded;
    }

    /** `updateNotificationBadge(count)`: records the count and shows or hides the badge. */
    method UpdateNotificationBadge(count: int, hasUserMenu: bool)
      modifies this
      ensures notificationCount == count
      ensures badge == BadgeAfter(old(badge), count, hasUserMenu)
      ensures count > 99 && badge.Some? ==> badge.value == BadgeView("99+", true)
      ensures count <= 0 ==> badge.None? || !badge.value.visible
      ensures mobileMenuOpen == old(mobileMenuOpen) && searchExpanded == old(searchExpanded)
      ensures chrome == old(chrome) && currentPage == old(currentPage)
    {
      notificationCount := count;
      badge := BadgeAfter(badge, count, hasUserMenu);
    }

    /** `setActiveNavItem(page)`: the new current page, and the links marked active for it. */
    method SetActiveNavItem(page: string, hrefs: seq<string>) returns (active: seq<bool>)
      modifies this
      ensures currentPage == page
      ensures active == ActiveLinks(hrefs, page)
      ensures mobileMenuOpen == old(mobileMenuOpen) && searchExpanded == old(searchExpanded)
      ensures chrome == old(chrome) && notificationCount == old(notificationCount) && badge == old(badge)
    {
      currentPage := page;
      active := ActiveLinks(hrefs, currentPage);
    }
  }
}
