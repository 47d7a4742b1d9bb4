/**
 * The floating table of contents: the open/closed menu, the click that
 * scrolls to a section, and the scroll-spy that marks the section the reader
 * has reached. The page is abstracted to the elements it holds, by id, with
 * their `offsetTop`; timers and React's effect re-runs are discrete events.
 */
module TableOfContents {
  import opened Wrappers

  datatype Section = Section(id: string, title: string)

  /** `document.getElementById(id)?.offsetTop` for every id the page holds. */
  type Page = map<string, int>

  /** The header offset `handleScroll` adds to `window.scrollY`. */
  const HeaderOffset: int := 150

  /** The section's element exists and its top is at or above `pos`. */
  predicate Reached(s: Section, page: Page, pos: int) {
    s.id in page && page[s.id] <= pos
  }

  /**
   * The highest index below `n` whose section is reached at `pos`, or None
   * when no such section exists.
   */
  function LastReached(sections: seq<Section>, page: Page, pos: int, n: nat): (r: Option<nat>)
    requires n <= |sections|
    ensures r.Some? ==> r.value < n && Reached(sections[r.value], page, pos)
    ensures r.Some? ==> forall j :: r.value < j < n ==> !Reached(sections[j], page, pos)
    ensures r.None? ==> forall j :: 0 <= j < n ==> !Reached(sections[j], page, pos)
  {
    if n == 0 then None
    else if Reached(sections[n - 1], page, pos) then Some(n - 1)
    else LastReached(sections, page, pos, n - 1)
  }

  /** The active section after a scroll evaluation at `scrollY`: the last reached section, else unchanged. */
  function ScrollResult(sections: seq<Section>, page: Page, scrollY: int, active: Option<string>): Option<string> {
    match LastReached(sections, page, scrollY + HeaderOffset, |sections|)
    case Some(k) => Some(sections[k].id)
    case None => active
  }

  /** Scrolling further down never moves the active section back up. */
  lemma {:induction false} LastReachedMonotone(sections: seq<Section>, page: Page, p: int, q: int)
    requires p <= q
    ensures LastReached(sections, page, p, |sections|).Some? ==>
              && LastReached(sections, page, q, |sections|).Some?
              && LastReached(sections, page, p, |sections|).value <= LastReached(sections, page, q, |sections|).value
  {
    var n := |sections|;
    var rp := LastReached(sections, page, p, n);
    var rq := LastReached(sections, page, q, n);
    if rp.Some? {
      assert Reached(sections[rp.value], page, q);
    }
  }

  /** A section whose element is missing is never chosen, however far the page is scrolled. */
  lemma MissingNeverChosen(sections: seq<Section>, page: Page, pos: int, k: nat)
    requires k < |sections| && sections[k].id !in page
    ensures LastReached(sections, page, pos, |sections|) != Some(k)
  {
  }

  /** Scrolled to the very top, with every element below `HeaderOffset`, nothing is chosen. */
  lemma NothingAboveTop(sections: seq<Section>, page: Page)
    requires forall id :: id in page ==> page[id] > HeaderOffset
    ensures ScrollResult(sections, page, 0, None) == None
  {
  }

  /** `id` is the id of one of the sections. */
  ghost predicate IsSectionId(sections: seq<Section>, id: string) {
    exists k :: 0 <= k < |sections| && sections[k].id == id
  }

  /**
   * The scroll evaluation picks a section id or keeps the previous value; it
   * keeps it exactly when no section is reached at `scrollY + HeaderOffset`,
   * and otherwise picks the id of a reached section with none reached after it.
   */
  lemma ScrollResultIsSection(sections: seq<Section>, page: Page, scrollY: int, active: Option<string>)
    ensures var r := ScrollResult(sections, page, scrollY, active);
            r == active || (r.Some? && IsSectionId(sections, r.value))
    ensures (forall j :: 0 <= j < |sections| ==> !Reached(sections[j], page, scrollY + HeaderOffset)) ==>
              ScrollResult(sections, page, scrollY, active) == active
    ensures (exists j :: 0 <= j < |sections| && Reached(sections[j], page, scrollY + HeaderOffset)) ==>
              exists k :: 0 <= k < |sections| && Reached(sections[k], page, scrollY + HeaderOffset) &&
                ScrollResult(sections, page, scrollY, active) == Some(sections[k].id) &&
                forall j :: k < j < |sections| ==> !Reached(sections[j], page, scrollY + HeaderOffset)
  {
    var r := LastReached(sections, page, scrollY + HeaderOffset, |sections|);
    if r.Some? {
      assert sections[r.value].id == ScrollResult(sections, page, scrollY, active).value;
    }
  }

  class TableOfContents {
    const sections: seq<Section>
    var isOpen: bool
    var activeSection: Option<string>
    var isProgrammaticScroll: bool
    /** `scrollTimeoutRef.current` holds a timer that has not fired or been cleared. */
    var timerPending: bool
    /** The scroll effect is installed, with the values of the two state dependencies it read. */
    var mounted: bool
    var effectActive: Option<string>
    var effectFlag: bool

    /**
     * The active section is always a section id; a pending timer means the
     * flag is set, and the flag is only set by a click, which also picks a
     * section. Once a section is active none ever is again, so while none
     * is the effect was installed with nothing active and no flag.
     */
    ghost predicate Valid()
      reads this
    {
      && (activeSection.Some? ==> IsSectionId(sections, activeSection.value))
      && (timerPending ==> isProgrammaticScroll)
      && (isProgrammaticScroll ==> activeSection.Some?)
      && (activeSection.None? ==> effectActive.None? && !effectFlag)
    }

    /** The first render: the menu starts open, nothing active, no flag and no timer. */
    constructor (sections: seq<Section>)
      ensures Valid() && this.sections == sections
      ensures isOpen && activeSection == None && !isProgrammaticScroll && !timerPending && !mounted
    {
      this.sections := sections;
      isOpen := true;
      activeSection := None;
      isProgrammaticScroll := false;
      timerPending := false;
      mounted := false;
      effectActive := None;
      effectFlag := false;
    }

    /** `toggleMenu`. */
    method ToggleMenu()
      requires Valid()
      modifies this
      ensures Valid() && isOpen == !old(isOpen)
      ensures activeSection == old(activeSection) && isProgrammaticScroll == old(isProgrammaticScroll)
      ensures timerPending == old(timerPending) && mounted == old(mounted)
      ensures effectActive == old(effectActive) && effectFlag == old(effectFlag)
    {
      isOpen := !isOpen;
    }

    /**
     * `scrollToSection` for the button of section `k`: when its element
     * exists, the section becomes active, the flag is set and a fresh timer
     * replaces any pending one; otherwise nothing changes.
     */
    method ScrollToSection(k: nat, page: Page)
      requires Valid() && k < |sections|
      modifies this
      ensures Valid()
      ensures sections[k].id in page ==>
                activeSection == Some(sections[k].id) && isProgrammaticScroll && timerPending
      ensures sections[k].id !in page ==>
                activeSection == old(activeSection) && isProgrammaticScroll == old(isProgrammaticScroll)
                && timerPending == old(timerPending)
      ensures isOpen == old(isOpen) && mounted == old(mounted)
      ensures effectActive == old(effectActive) && effectFlag == old(effectFlag)
    {
      var id := sections[k].id;
      if id in page {
        activeSection := Some(id);
        isProgrammaticScroll := true;
        timerPending := true;
      }
    }

    /** The one-second timer fired: the flag is cleared. */
    method TimeoutFired()
      requires Valid() && timerPending
      modifies this
      ensures Valid() && !isProgrammaticScroll && !timerPending
      ensures isOpen == old(isOpen) && activeSection == old(activeSection) && mounted == old(mounted)
      ensures effectActive == old(effectActive) && effectFlag == old(effectFlag)
    {
      isProgrammaticScroll := false;
      timerPending := false;
    }

    /**
     * The installed listener `handleScroll`: ignored while the flag it
     * captured when the effect last ran is set; otherwise the sections are
     * searched from the last to the first for one whose element is at or
     * above `scrollY + HeaderOffset`, and the first found becomes active. Only an
     * installed listener receives scroll events.
     */
    method HandleScroll(page: Page, scrollY: int)
      requires Valid() && mounted
      modifies this
      ensures Valid()
      ensures old(effectFlag) ==> activeSection == old(activeSection)
      ensures !old(effectFlag) ==>
                activeSection == ScrollResult(sections, page, scrollY, old(activeSection))
      ensures isOpen == old(isOpen) && isProgrammaticScroll == old(isProgrammaticScroll)
      ensures timerPending == old(timerPending) && mounted == old(mounted)
      ensures effectActive == old(effectActive) && effectFlag == old(effectFlag)
    {
      if effectFlag {
        return;
      }
      var pos := scrollY + HeaderOffset;
      var i := |sections|;
      while i > 0
        invariant 0 <= i <= |sections|
        invariant LastReached(sections, page, pos, i) == LastReached(sections, page, pos, |sections|)
        invariant activeSection == old(activeSection)
        decreases i
      {
        var section := sections[i - 1];
        if section.id in page {
          if pos >= page[section.id] {
            activeSection := Some(section.id);
            break;
          }
        }
        i := i - 1;
      }
      ScrollResultIsSection(sections, page, scrollY, old(activeSection));
    }

    /** The effect's first run: the scroll listener is installed and, with nothing active and no flag, evaluated once. */
    method Mount(page: Page, scrollY: int)
      requires Valid() && !mounted
      modifies this
      ensures Valid() && mounted
      ensures effectActive == old(activeSection) && effectFlag == old(isProgrammaticScroll)
      ensures old(activeSection).None? && !old(isProgrammaticScroll) ==>
                activeSection == ScrollResult(sections, page, scrollY, None)
      ensures old(activeSection).Some? || old(isProgrammaticScroll) ==> activeSection == old(activeSection)
      ensures isOpen == old(isOpen) && isProgrammaticScroll == old(isProgrammaticScroll)
      ensures timerPending == old(timerPending)
    {
      mounted := true;
      effectActive := activeSection;
      effectFlag := isProgrammaticScroll;
      if activeSection.None? && !isProgrammaticScroll {
        HandleScroll(page, scrollY);
      }
    }

    /**
     * A render in which `activeSection` or `isProgrammaticScroll` changed,
     * as written: the old effect's cleanup clears `scrollTimeoutRef.current`,
     * which is the timer the click just started, and the effect runs again.
     */
    method CommitAsWritten()
      requires Valid() && mounted
      modifies this
      ensures Valid() && mounted
      ensures (activeSection, isProgrammaticScroll) == (effectActive, effectFlag)
      ensures (old(activeSection), old(isProgrammaticScroll)) == (old(effectActive), old(effectFlag)) ==>
                activeSection == old(activeSection) && isProgrammaticScroll == old(isProgrammaticScroll)
                && timerPending == old(timerPending)
      ensures (old(activeSection), old(isProgrammaticScroll)) != (old(effectActive), old(effectFlag)) ==>
                !timerPending && isProgrammaticScroll == old(isProgrammaticScroll)
                && activeSection == old(activeSection)
      ensures isOpen == old(isOpen)
    {
      if (activeSection, isProgrammaticScroll) != (effectActive, effectFlag) {
        timerPending := false;
        Rerun();
      }
    }

    /**
     * The same render with the timer left to the click that started it: a
     * dependency change re-runs the effect without touching the timer, which
     * is cleared only on unmount.
     */
    method Commit()
      requires Valid() && mounted
      modifies this
      ensures Valid() && mounted
      ensures (activeSection, isProgrammaticScroll) == (effectActive, effectFlag)
      ensures activeSection == old(activeSection) && isProgrammaticScroll == old(isProgrammaticScroll)
      ensures timerPending == old(timerPending) && isOpen == old(isOpen)
    {
      if (activeSection, isProgrammaticScroll) != (effectActive, effectFlag) {
        Rerun();
      }
    }

    /**
     * The effect re-installed after a dependency change. Its mount check
     * needs nothing active and no flag, which a change from a click or a
     * scroll never leaves, so it only records the new dependencies.
     */
    method Rerun()
      requires Valid() && (activeSection.Some? || isProgrammaticScroll)
      modifies this
      ensures Valid()
      ensures effectActive == activeSection && effectFlag == isProgrammaticScroll
      ensures activeSection == old(activeSection) && isProgrammaticScroll == old(isProgrammaticScroll)
      ensures isOpen == old(isOpen) && timerPending == old(timerPending) && mounted == old(mounted)
    {
      effectActive := activeSection;
      effectFlag := isProgrammaticScroll;
    }

    /** The component unmounts: the listener is removed and a pending timer is cleared. */
    method Unmount()
      requires Valid()
      modifies this
      ensures Valid() && !mounted && !timerPending
      ensures activeSection == old(activeSection) && isProgrammaticScroll == old(isProgrammaticScroll)
      ensures isOpen == old(isOpen)
    {
      mounted := false;
      timerPending := false;
    }
  }

  // ----- whole interactions -----

  /**
   * As written: after a click on a section whose element exists, the
   * re-render's cleanup cancels the timer, so the flag stays set with no
   * timer left to clear it, and a later scroll anywhere leaves the clicked
   * section active.
   */
  method ClickDisablesScrollSpy(sections: seq<Section>, k: nat, page: Page, y0: int, y1: int)
    returns (active: Option<string>, flag: bool, pending: bool)
    requires k < |sections| && sections[k].id in page
    ensures active == Some(sections[k].id) && flag && !pending
  {
    var toc := new TableOfContents(sections);
    toc.Mount(page, y0);
    toc.ScrollToSection(k, page);
    toc.CommitAsWritten();
    toc.HandleScroll(page, y1);
    active, flag, pending := toc.activeSection, toc.isProgrammaticScroll, toc.timerPending;
  }

  /**
   * With the timer kept: after the click, the timer fires, the flag clears
   * and the next scroll again marks the last section reached.
   */
  method ClickThenScroll(sections: seq<Section>, k: nat, page: Page, y0: int, y1: int)
    returns (active: Option<string>, flag: bool)
    requires k < |sections| && sections[k].id in page
    ensures !flag
    ensures active == ScrollResult(sections, page, y1, Some(sections[k].id))
  {
    var toc := new TableOfContents(sections);
    toc.Mount(page, y0);
    toc.ScrollToSection(k, page);
    toc.Commit();
    toc.TimeoutFired();
    toc.Commit();
    toc.HandleScroll(page, y1);
    active, flag := toc.activeSection, toc.isProgrammaticScroll;
  }

  /** Toggling the menu twice leaves it as it was: open, since it starts open. */
  method ToggleTwice(sections: seq<Section>) returns (open: bool)
    ensures open
  {
    var toc := new TableOfContents(sections);
    toc.ToggleMenu();
    toc.ToggleMenu();
    open := toc.isOpen;
  }
}
