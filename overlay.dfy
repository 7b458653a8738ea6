/** The loading overlay and the app container that every page script hides behind it.
    The DOM is abstracted to the flags the reveal writes: the container's display,
    the overlay's 'hidden' class, and the number of reveals run and of 500 ms
    overlay removals scheduled (the timer itself is not modelled). */
module Overlay {

  datatype Screen = Screen(
    contentVisible: bool,     // app.style.display == 'block' (otherwise 'none')
    overlayHidden: bool,      // loadingScreen carries the 'hidden' class
    revealCount: nat,         // how many times the reveal block has run
    removalsScheduled: nat)   // how many setTimeout(() => loadingScreen.remove(), 500) calls were made

  /** The state the page script sets up before waiting: the overlay is shown and the
      container's display is 'none'. */
  function Initial(): (s: Screen)
    ensures !s.contentVisible && !s.overlayHidden
    ensures s.revealCount == 0 && s.removalsScheduled == 0
  {
    Screen(false, false, 0, 0)
  }

  /** The three-statement reveal block repeated throughout the gates: add 'hidden' to the
      overlay, set the container to 'block', schedule the overlay's removal. */
  function Reveal(s: Screen): (r: Screen)
    ensures r.contentVisible && r.overlayHidden
    ensures r.revealCount == s.revealCount + 1 && r.removalsScheduled == s.removalsScheduled + 1
  {
    Screen(true, true, s.revealCount + 1, s.removalsScheduled + 1)
  }

  /** The visible flags follow from the reveal count, and each reveal schedules one removal. */
  predicate Consistent(s: Screen)
  {
    s.contentVisible == (s.revealCount > 0) &&
    s.overlayHidden == (s.revealCount > 0) &&
    s.removalsScheduled == s.revealCount
  }

  /** Running the reveal block a second time changes no visible flag: only the counters move. */
  lemma RevealAgainKeepsView(s: Screen)
    ensures Reveal(Reveal(s)).contentVisible == Reveal(s).contentVisible
    ensures Reveal(Reveal(s)).overlayHidden == Reveal(s).overlayHidden
    ensures Reveal(Reveal(s)).removalsScheduled == Reveal(s).removalsScheduled + 1
  {
  }
}
