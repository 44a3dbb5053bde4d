/** The site's navigation bar: a scroll-driven show/hide rule, the active
    item and the mobile menu. The scroll position is a parameter of the
    scroll handler. */
module Navbar {

  /** The visibility after a scroll to `y`, from the visibility before and
      the previous position: at the top it shows; moving down past 100 it
      hides; moving up it shows; otherwise it stays as it was. */
  function VisibleAfterScroll(visible: bool, lastScrollY: int, y: int): bool {
    if y < 10 then true
    else if y > lastScrollY && y > 100 then false
    else if y < lastScrollY then true
    else visible
  }

  /** Near the top of the page the bar always shows. */
  lemma ShownAtTop(visible: bool, lastScrollY: int, y: int)
    requires y < 10
    ensures VisibleAfterScroll(visible, lastScrollY, y)
  {
  }

  /** Moving down past 100 hides it; moving up below the top band shows it. */
  lemma DirectionDecides(visible: bool, lastScrollY: int, y: int)
    requires y >= 10
    ensures y > lastScrollY && y > 100 ==> !VisibleAfterScroll(visible, lastScrollY, y)
    ensures y < lastScrollY ==> VisibleAfterScroll(visible, lastScrollY, y)
    ensures y == lastScrollY || (lastScrollY < y <= 100) ==>
              VisibleAfterScroll(visible, lastScrollY, y) == visible
  {
  }

  /** The bar is hidden only after a scroll that ended more than 100 down. */
  predicate Consistent(visible: bool, lastScrollY: int) {
    !visible ==> lastScrollY > 100
  }

  /** Every scroll keeps that so: hiding needs a position past 100, and a
      hidden bar stays hidden only while the page does not move back up. */
  lemma ScrollKeepsConsistent(visible: bool, lastScrollY: int, y: int)
    requires Consistent(visible, lastScrollY)
    ensures Consistent(VisibleAfterScroll(visible, lastScrollY, y), y)
  {
  }

  /** Any scroll back up, however small, brings a hidden bar back. */
  lemma ScrollUpShows(lastScrollY: int, y: int)
    requires y < lastScrollY
    ensures VisibleAfterScroll(false, lastScrollY, y)
  {
  }

  class Bar {
    var isOpen: bool
    var activeItem: string
    var isVisible: bool
    var lastScrollY: int

    predicate Valid()
      reads this
    {
      Consistent(isVisible, lastScrollY)
    }

    constructor ()
      ensures Valid()
      ensures !isOpen && activeItem == "Home" && isVisible && lastScrollY == 0
    {
      isOpen := false;
      activeItem := "Home";
      isVisible := true;
      lastScrollY := 0;
    }

    /** `handleScroll` for a scroll to `y`: the visibility rule, then the
      position is remembered. */
    method HandleScroll(y: int)
      requires Valid()
      modifies this
      ensures Valid()
      ensures isVisible == VisibleAfterScroll(old(isVisible), old(lastScrollY), y)
      ensures lastScrollY == y
      ensures isOpen == old(isOpen) && activeItem == old(activeItem)
    {
      if y < 10 {
        isVisible := true;
      } else if y > lastScrollY && y > 100 {
        isVisible := false;
      } else if y < lastScrollY {
        isVisible := true;
      }
      ScrollKeepsConsistent(old(isVisible), old(lastScrollY), y);
      lastScrollY := y;
    }

    /** `handleItemClick`: the clicked item becomes active and the mobile menu closes. */
    method ItemClick(name: string)
      modifies this
      ensures activeItem == name && !isOpen
      ensures isVisible == old(isVisible) && lastScrollY == old(lastScrollY)
    {
      activeItem := name;
      isOpen := false;
    }

    /** The menu button. */
    method ToggleMenu()
      modifies this
      ensures isOpen == !old(isOpen)
      ensures activeItem == old(activeItem) && isVisible == old(isVisible) && lastScrollY == old(lastScrollY)
    {
      isOpen := !isOpen;
    }

    /** A click on the overlay behind the open mobile menu. */
    method OverlayClick()
      modifies this
      ensures !isOpen
      ensures activeItem == old(activeItem) && isVisible == old(isVisible) && lastScrollY == old(lastScrollY)
    {
      isOpen := false;
    }
  }
}
