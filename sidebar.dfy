/** The navigation sidebar (src/shared/hooks/useSidebar.tsx): open or
    closed, closed on the first render, then opened on desktop and closed on
    mobile each time the screen size class changes, and otherwise toggled,
    opened or closed by hand. */
module Sidebar {

  class SidebarProvider {
    var isOpen: bool
    var isMobile: bool

    /** The first render: closed, whatever the screen. */
    constructor(isMobile: bool)
      ensures !isOpen && this.isMobile == isMobile
    {
      isOpen := false;
      this.isMobile := isMobile;
    }

    /** The effect on `isMobile`, run after the first render and after
        every change of it. */
    method MobileEffect()
      modifies this
      ensures isOpen == !isMobile && isMobile == old(isMobile)
    {
      isOpen := !isMobile;
    }

    /** The media query reports `mobile`; the effect runs only when the
        value changes. */
    method ScreenChanged(mobile: bool)
      modifies this
      ensures isMobile == mobile
      ensures isOpen == if mobile != old(isMobile) then !mobile else old(isOpen)
    {
      if mobile != isMobile {
        isMobile := mobile;
        MobileEffect();
      }
    }

    method Toggle()
      modifies this
      ensures isOpen == !old(isOpen) && isMobile == old(isMobile)
    {
      isOpen := !isOpen;
    }

    method Open()
      modifies this
      ensures isOpen && isMobile == old(isMobile)
    {
      isOpen := true;
    }

    method Close()
      modifies this
      ensures !isOpen && isMobile == old(isMobile)
    {
      isOpen := false;
    }
  }

  /** Two toggles restore the state; open and close are idempotent; and a
      sidebar opened by hand on mobile stays open until the screen class
      changes. */
  method SidebarLaws(mobile: bool) returns (afterTwoToggles: bool, openedTwice: bool, closedTwice: bool, kept: bool)
    ensures afterTwoToggles == !mobile && openedTwice && !closedTwice && kept
  {
    var s := new SidebarProvider(mobile);
    s.MobileEffect();
    s.Toggle();
    s.Toggle();
    afterTwoToggles := s.isOpen;
    s.Open();
    s.Open();
    openedTwice := s.isOpen;
    s.Close();
    s.Close();
    closedTwice := s.isOpen;
    s.Open();
    s.ScreenChanged(mobile);
    kept := s.isOpen;
  }
}
