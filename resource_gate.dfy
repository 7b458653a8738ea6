/** The 404 page's gate `waitForResources`: it waits on the snapshotted images and on the
    `dotlottie-player` elements, counts every settlement through `checkAllLoaded`, and arms a
    10 s fallback timeout. Unlike the image gate it has no latch: the timeout may reveal the
    page early and the last settlement then runs the reveal block a second time. */
module ResourceGate {
  import opened Overlay
  import IG = ImageGate

  /** The 10 s fallback timer: never set (no resources), armed, or already fired. */
  datatype Timer = Unset | Armed | Fired

  /** `base` holds the images' states followed by the players' states, `loadedCount` and the
      screen; `forced` records whether the timeout ran the reveal (model bookkeeping, not a
      variable of the page script). */
  datatype Resources = Resources(base: IG.Gate, timer: Timer, forced: bool)

  function Pendings(n: nat): (s: seq<IG.Status>)
    ensures |s| == n && forall i :: 0 <= i < n ==> s[i] == IG.Pending
  {
    seq(n, _ => IG.Pending)
  }

  /** `waitForResources()`: total = images + players, taken once; the images are registered as
      in the image gate (counted at once if `complete`), the players are all left waiting for
      'ready' or 'error', and the timeout is armed. With no resources it reveals and returns
      before arming the timeout. */
  function Start(images: seq<bool>, players: nat): Resources
  {
    var total := |images| + players;
    if total == 0 then Resources(IG.Gate([], 0, Reveal(Initial())), Unset, false)
    else
      var g := IG.Registered(total, images);
      Resources(g.(status := g.status + Pendings(players)), Armed, false)
  }

  /** A load/error event of an image or a ready/error event of a player: `checkAllLoaded`. */
  function Settle(r: Resources, i: nat, ok: bool): Resources
    requires i < |r.base.status|
  {
    r.(base := IG.Settle(r.base, i, ok))
  }

  /** The fallback timeout: reveal only if `loadedCount < totalResources` at that moment. */
  function Timeout(r: Resources): Resources
    requires r.timer == Armed
  {
    var g := r.base;
    var early := g.loaded < |g.status|;
    Resources(if early then g.(screen := Reveal(g.screen)) else g, Fired, early)
  }

  /** The invariant: the counter counts the settled resources, the timer is armed exactly when
      there are resources, and the reveal has run once for a forced timeout plus once for the
      final settlement. */
  ghost predicate Inv(r: Resources)
  {
    var g := r.base;
    g.loaded == IG.SettledCount(g.status) &&
    (|g.status| == 0 <==> r.timer == Unset) &&
    (r.forced ==> r.timer == Fired) &&
    g.screen.revealCount == (if r.forced then 1 else 0) + (if g.loaded == |g.status| then 1 else 0) &&
    Consistent(g.screen)
  }

  lemma {:induction false} SettledCountPendings(s: seq<IG.Status>, n: nat)
    ensures IG.SettledCount(s + Pendings(n)) == IG.SettledCount(s)
  {
    if n == 0 {
      assert s + Pendings(n) == s;
    } else {
      SettledCountPendings(s, n - 1);
      assert Pendings(n) == Pendings(n - 1) + [IG.Pending];
      assert s + Pendings(n) == (s + Pendings(n - 1)) + [IG.Pending];
      IG.SettledCountAppend(s + Pendings(n - 1), IG.Pending);
    }
  }

  /** With something to wait for, the snapshot is the registered images followed by the
      waiting players, and the players add nothing to the count. */
  lemma StartRegisters(images: seq<bool>, players: nat)
    requires 0 < |images| + players
    ensures var g := IG.Registered(|images| + players, images);
      IG.RegisteredState(g, |images| + players, images) &&
      Start(images, players).base.status == g.status + Pendings(players) &&
      IG.SettledCount(g.status + Pendings(players)) == g.loaded
  {
    var total := |images| + players;
    IG.RegisteredPrefix(total, images);
    SettledCountPendings(IG.Registered(total, images).status, players);
  }

  /** The snapshot: one state per resource, images first and players after them; the complete
      images are counted, every player waits, the timer is armed whenever there is something
      to wait for, and the page is revealed at once only if there are no players and every
      image is already complete (in particular when there are no resources at all). */
  lemma StartSnapshot(images: seq<bool>, players: nat)
    ensures var r := Start(images, players);
      Inv(r) && !r.forced &&
      |r.base.status| == |images| + players &&
      (forall i :: 0 <= i < |images| ==> r.base.status[i] == if images[i] then IG.Loaded else IG.Pending) &&
      (forall j :: |images| <= j < |images| + players ==> r.base.status[j] == IG.Pending) &&
      (r.timer == Armed <==> |images| + players > 0) &&
      (r.base.screen.contentVisible <==> players == 0 && forall i :: 0 <= i < |images| ==> images[i])
  {
    var total := |images| + players;
    if total > 0 {
      StartRegisters(images, players);
      var g := IG.Registered(total, images);
      var s := Start(images, players).base.status;
      assert forall i :: 0 <= i < |images| ==> s[i] == g.status[i];
      if players == 0 {
        assert s == g.status;
        IG.SettledCountFull(g.status);
      } else {
        assert s[total - 1] == IG.Pending;
      }
    }
  }

  /** A settlement keeps the invariant, adds one to the counter, and never hides the page
      again once it is visible. */
  lemma SettleKeepsInv(r: Resources, i: nat, ok: bool)
    requires Inv(r) && i < |r.base.status| && r.base.status[i] == IG.Pending
    ensures Inv(Settle(r, i, ok))
    ensures Settle(r, i, ok).base.loaded == r.base.loaded + 1 <= |r.base.status|
    ensures r.base.screen.contentVisible ==> Settle(r, i, ok).base.screen.contentVisible
  {
    IG.SettleCounts(r.base, i, ok);
  }

  /** The timeout keeps the invariant and always leaves the page visible; it runs the reveal
      only when something is still pending, and otherwise changes nothing but the timer. */
  lemma TimeoutKeepsInv(r: Resources)
    requires Inv(r) && r.timer == Armed
    ensures Inv(Timeout(r))
    ensures Timeout(r).base.screen.contentVisible
    ensures r.base.loaded < |r.base.status| ==> Timeout(r).base.screen == Reveal(r.base.screen)
    ensures r.base.loaded == |r.base.status| ==> Timeout(r).base == r.base
  {
    IG.SettledCountFull(r.base.status);
  }

  /** Without a latch the reveal block runs at most twice, and twice exactly when the timeout
      forced the page open and every resource settled afterwards. */
  lemma AtMostTwoReveals(r: Resources)
    requires Inv(r)
    ensures r.base.screen.revealCount <= 2
    ensures r.base.screen.revealCount == 2 <==>
      r.forced && forall i :: 0 <= i < |r.base.status| ==> r.base.status[i] != IG.Pending
  {
    IG.SettledCountFull(r.base.status);
  }

  /** The 404 page itself: its loading GIF and one pending player. The timeout fires first and
      reveals; the player's 'ready' then runs the reveal block again and schedules a second
      overlay removal, while the visible flags stay as the first reveal left them. */
  lemma NoLatchSecondReveal()
    ensures var r0 := Start([true], 1);
      r0.timer == Armed && !r0.base.screen.contentVisible &&
      var r1 := Timeout(r0);
      r1.base.screen.contentVisible && r1.base.screen.revealCount == 1 &&
      1 < |r1.base.status| && r1.base.status[1] == IG.Pending &&
      var r2 := Settle(r1, 1, true);
      r2.base.screen.revealCount == 2 && r2.base.screen.removalsScheduled == 2 &&
      r2.base.screen.contentVisible == r1.base.screen.contentVisible &&
      r2.base.screen.overlayHidden == r1.base.screen.overlayHidden
  {
    StartSnapshot([true], 1);
  }

  // ---------------------------------------------------------------------------
  // Runs of events

  /** The resources after the events, in the order given: `checkAllLoaded` once per event.
      The timer is not touched, so the timeout may have fired before the run. */
  function Run(r: Resources, evs: seq<IG.Event>): Resources
    requires IG.Schedulable(r.base, evs)
  {
    r.(base := IG.Run(r.base, evs))
  }

  /** A run keeps the invariant, even after the timeout forced the reveal, and never hides a
      visible page. */
  lemma RunKeepsInv(r: Resources, evs: seq<IG.Event>)
    requires Inv(r) && IG.Schedulable(r.base, evs)
    ensures Inv(Run(r, evs))
    ensures Run(r, evs).base.loaded == r.base.loaded + |evs|
    ensures r.base.screen.contentVisible ==> Run(r, evs).base.screen.contentVisible
  {
    IG.RunEffect(r.base, evs);
    if evs != [] {
      IG.SettledCountFull(r.base.status);
      assert r.base.status[evs[0].image] == IG.Pending;
    }
  }

  /** Order independence for the 404 gate: the same images' and players' events in any order
      leave the same state, whether or not the timeout has already fired. */
  lemma RunOrderIndependent(r: Resources, a: seq<IG.Event>, b: seq<IG.Event>)
    requires Inv(r) && IG.Schedulable(r.base, a) && IG.Schedulable(r.base, b)
    requires multiset(a) == multiset(b)
    ensures Run(r, a) == Run(r, b)
  {
    IG.RunOrderIndependent(r.base, a, b);
  }

  /** Once every pending resource has fired, in any order, the page is visible and the reveal
      block has run once, or twice if the timeout forced it first. */
  lemma AllSettledReveals(r: Resources, evs: seq<IG.Event>)
    requires Inv(r) && IG.Schedulable(r.base, evs)
    requires forall j :: 0 <= j < |r.base.status| && r.base.status[j] == IG.Pending ==>
      IG.Event(j, true) in evs || IG.Event(j, false) in evs
    ensures Run(r, evs).base.screen.contentVisible
    ensures Run(r, evs).base.screen.revealCount == if r.forced then 2 else 1
  {
    RunKeepsInv(r, evs);
    IG.RunEffect(r.base, evs);
    IG.SettledCountFull(Run(r, evs).base.status);
  }

  // ---------------------------------------------------------------------------
  // The page, event by event

  class NotFoundPage {
    var started: bool
    var status: seq<IG.Status>        // images, then players
    var loaded: nat                   // loadedCount
    var contentVisible: bool
    var overlayHidden: bool
    var revealCount: nat
    var removalsScheduled: nat
    var timer: Timer
    ghost var forced: bool

    ghost function View(): Resources
      reads this
    {
      Resources(IG.Gate(status, loaded, Screen(contentVisible, overlayHidden, revealCount, removalsScheduled)),
                timer, forced)
    }

    ghost predicate Valid()
      reads this
    {
      if started then Inv(View()) else View() == Resources(IG.Fresh(), Unset, false)
    }

    /** Up to the call of `waitForResources`: overlay shown, container hidden. */
    constructor ()
      ensures Valid() && !started
    {
      started := false;
      status, loaded := [], 0;
      contentVisible, overlayHidden, revealCount, removalsScheduled := false, false, 0, 0;
      timer, forced := Unset, false;
    }

    method RevealNow()
      modifies this
      ensures View() == old(View()).(base := old(View()).base.(screen := Reveal(old(View()).base.screen)))
      ensures started == old(started)
    {
      overlayHidden := true;
      contentVisible := true;
      removalsScheduled := removalsScheduled + 1;
      revealCount := revealCount + 1;
    }

    /** `checkAllLoaded`. */
    method CheckAllLoaded(total: nat)
      modifies this
      ensures View() == old(View()).(base := IG.CountOne(old(View()).base, total))
      ensures started == old(started)
    {
      loaded := loaded + 1;
      if loaded == total {
        RevealNow();
      }
    }

    /** The `images.forEach`: each image is counted at once if complete, otherwise waits. */
    method RegisterImages(images: seq<bool>, total: nat)
      requires View().base == IG.Fresh()
      modifies this
      ensures View().base == IG.Registered(total, images)
      ensures started == old(started) && timer == old(timer) && forced == old(forced)
    {
      var i := 0;
      while i < |images|
        invariant 0 <= i <= |images|
        invariant started == old(started) && timer == old(timer) && forced == old(forced)
        invariant View().base == IG.Registered(total, images[..i])
      {
        assert images[..i + 1][..i] == images[..i];
        if images[i] {
          status := status + [IG.Loaded];
          CheckAllLoaded(total);
        } else {
          status := status + [IG.Pending];
        }
        i := i + 1;
      }
      assert images[..i] == images;
    }

    /** The `lottiePlayers.forEach`: every player waits for 'ready' or 'error'. */
    method RegisterPlayers(players: nat)
      modifies this
      ensures View() == old(View()).(base := old(View()).base.(status := old(status) + Pendings(players)))
      ensures started == old(started)
    {
      var j := 0;
      while j < players
        invariant 0 <= j <= players
        invariant View() == old(View()).(base := old(View()).base.(status := old(status) + Pendings(j)))
        invariant started == old(started)
      {
        assert Pendings(j + 1) == Pendings(j) + [IG.Pending];
        status := status + [IG.Pending];
        j := j + 1;
      }
    }

    method WaitForResources(images: seq<bool>, players: nat)
      requires Valid() && !started
      modifies this
      ensures Valid() && started
      ensures View() == Start(images, players)
    {
      var total := |images| + players;
      if total == 0 {
        RevealNow();
        started := true;
        StartSnapshot(images, players);
        return;
      }
      RegisterImages(images, total);
      RegisterPlayers(players);
      timer := Armed;
      started := true;
      StartSnapshot(images, players);
    }

    /** An image's load or error listener, or a player's ready or error listener. */
    method OnSettle(i: nat, ok: bool)
      requires Valid() && started
      requires i < |status| && status[i] == IG.Pending
      modifies this
      ensures Valid() && started
      ensures View() == Settle(old(View()), i, ok)
    {
      SettleKeepsInv(View(), i, ok);
      status := status[i := if ok then IG.Loaded else IG.Failed];
      CheckAllLoaded(|status|);
    }

    /** The 10 s fallback. */
    method OnTimeout()
      requires Valid() && started && timer == Armed
      modifies this
      ensures Valid() && started
      ensures View() == Timeout(old(View()))
    {
      TimeoutKeepsInv(View());
      forced := loaded < |status|;
      if loaded < |status| {
        RevealNow();
      }
      timer := Fired;
    }
  }
}
