/**
 * The sidebar: which section is highlighted as the page scrolls, and the
 * open/closed flag of the mobile menu. The page's DOM is a map from element
 * id to `offsetTop` holding the ids that exist; the scroll position is a
 * parameter of the scroll handler.
 */
module Sidebar {

  /** The ids of `navItems`, top to bottom. */
  const NavIds: seq<string> := ["hero", "about", "skills", "services", "projects", "cv", "contact"]

  /** How far below the top of the window a section may start and still count as reached. */
  const ScrollOffset := 100

  /** Section `i` exists and starts at or above `scrollY + 100`. */
  predicate Reached(dom: map<string, int>, scrollY: int, i: int)
    requires 0 <= i < |NavIds|
  {
    NavIds[i] in dom && dom[NavIds[i]] <= scrollY + ScrollOffset
  }

  /** The last reached section among the first `n`, if any. */
  function LastReached(dom: map<string, int>, scrollY: int, n: nat): (r: int)
    requires n <= |NavIds|
    ensures -1 <= r < n
    ensures r >= 0 ==> Reached(dom, scrollY, r)
    ensures forall j :: r < j < n ==> !Reached(dom, scrollY, j)
  {
    if n == 0 then -1
    else if Reached(dom, scrollY, n - 1) then n - 1
    else LastReached(dom, scrollY, n - 1)
  }

  class Sidebar {
    var isMobileOpen: bool
    var activeSection: string

    ghost predicate Valid()
      reads this
    {
      activeSection in NavIds
    }

    /** The initial state: the hero section is highlighted and the mobile menu is closed. */
    constructor ()
      ensures Valid() && activeSection == "hero" && !isMobileOpen
    {
      isMobileOpen := false;
      activeSection := "hero";
    }

    /**
     * `handleScroll`: scanning from the bottom, the first reached section
     * becomes active; when none is reached the active section stays.
     */
    method HandleScroll(dom: map<string, int>, scrollY: int)
      requires Valid()
      modifies this
      ensures Valid() && isMobileOpen == old(isMobileOpen)
      ensures var k := LastReached(dom, scrollY, |NavIds|);
        activeSection == if k >= 0 then NavIds[k] else old(activeSection)
    {
      var scrollPosition := scrollY + ScrollOffset;
      var i := |NavIds| - 1;
      while i >= 0
        invariant -1 <= i < |NavIds|
        invariant forall j :: i < j < |NavIds| ==> !Reached(dom, scrollY, j)
        invariant activeSection == old(activeSection)
      {
        var id := NavIds[i];
        if id in dom && dom[id] <= scrollPosition {
          assert Reached(dom, scrollY, i);
          activeSection := id;
          break;
        }
        i := i - 1;
      }
      ghost var k := LastReached(dom, scrollY, |NavIds|);
      assert i >= 0 ==> k == i;
    }

    /** `scrollToSection`: closes the mobile menu only when the target exists. */
    method ScrollToSection(id: string, dom: map<string, int>)
      modifies this
      ensures isMobileOpen == (if id in dom then false else old(isMobileOpen))
      ensures activeSection == old(activeSection)
    {
      if id in dom {
        isMobileOpen := false;
      }
    }

    /** The menu button flips the mobile menu. */
    method ToggleMobileMenu()
      modifies this
      ensures isMobileOpen == !old(isMobileOpen)
      ensures activeSection == old(activeSection)
    {
      isMobileOpen := !isMobileOpen;
    }

    /** A click on the overlay closes the mobile menu. */
    method CloseMobileMenu()
      modifies this
      ensures !isMobileOpen
      ensures activeSection == old(activeSection)
    {
      isMobileOpen := false;
    }
  }
}
