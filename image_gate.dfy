/** The image-load reveal gate `waitForImages`, shared verbatim by the privacy, home, terms,
    who-we-are, careers and news page scripts. The specification is a state machine on
    values (Gate, Start, Settle); the class Page runs it step by step as the browser's
    events arrive. */
module ImageGate {
  import opened Overlay

  /** The terminal or pending state of one snapshotted image. */
  datatype Status = Pending | Loaded | Failed

  /** The gate's closure state (the per-image states and `loadedCount`) plus the screen it writes.
      After the snapshot, `totalImages` is |status|. */
  datatype Gate = Gate(status: seq<Status>, loaded: nat, screen: Screen)

  /** A load (ok) or error (not ok) event of the image at position `image` of the snapshot. */
  datatype Event = Event(image: nat, ok: bool)

  /** Number of images that have reached a terminal state. */
  function SettledCount(s: seq<Status>): (n: nat)
    ensures n <= |s|
  {
    if s == [] then 0
    else SettledCount(s[..|s| - 1]) + (if s[|s| - 1] == Pending then 0 else 1)
  }

  /** The gate before `waitForImages` runs: nothing snapshotted, content hidden. */
  function Fresh(): Gate
  {
    Gate([], 0, Initial())
  }

  /** `loadedCount++` followed by the reveal when the count equals the total. */
  function CountOne(g: Gate, total: nat): Gate
  {
    var n := g.loaded + 1;
    g.(loaded := n, screen := if n == total then Reveal(g.screen) else g.screen)
  }

  /** Registration of one image: counted at once if `complete`, otherwise left pending
      with its load and error listeners attached. */
  function Register(g: Gate, total: nat, complete: bool): Gate
  {
    if complete then CountOne(g.(status := g.status + [Loaded]), total)
    else g.(status := g.status + [Pending])
  }

  /** The `forEach` over a prefix of the snapshot, in snapshot order. */
  function Registered(total: nat, complete: seq<bool>): Gate
    decreases |complete|
  {
    if complete == [] then Fresh()
    else Register(Registered(total, complete[..|complete| - 1]), total, complete[|complete| - 1])
  }

  /** `waitForImages` on a snapshot whose i-th image reports `complete[i]`. */
  function Start(complete: seq<bool>): Gate
  {
    if |complete| == 0 then Gate([], 0, Reveal(Initial()))
    else Registered(|complete|, complete)
  }

  /** The load or error listener of image i: both count the image once. */
  function Settle(g: Gate, i: nat, ok: bool): Gate
    requires i < |g.status|
  {
    CountOne(g.(status := g.status[i := if ok then Loaded else Failed]), |g.status|)
  }

  /** The gate's invariant after the snapshot: the counter counts the settled images, and
      the reveal has run once exactly when every image is settled. */
  ghost predicate Inv(g: Gate)
  {
    g.loaded == SettledCount(g.status) &&
    g.screen.revealCount == (if g.loaded == |g.status| then 1 else 0) &&
    Consistent(g.screen)
  }

  /** Events that the browser can still deliver: each names a pending image, and no image
      fires twice (load and error are mutually exclusive and fire once). */
  ghost predicate Schedulable(g: Gate, evs: seq<Event>)
  {
    (forall k :: 0 <= k < |evs| ==> evs[k].image < |g.status| && g.status[evs[k].image] == Pending) &&
    (forall k, l :: 0 <= k < l < |evs| ==> evs[k].image != evs[l].image)
  }

  /** The gate after the events, in the order given. */
  function Run(g: Gate, evs: seq<Event>): Gate
    requires Schedulable(g, evs)
    decreases |evs|
  {
    if evs == [] then g
    else
      var g' := Settle(g, evs[0].image, evs[0].ok);
      assert Schedulable(g', evs[1..]) by {
        forall k | 0 <= k < |evs[1..]|
          ensures evs[1..][k].image < |g'.status| && g'.status[evs[1..][k].image] == Pending
        {
          assert evs[1..][k] == evs[k + 1];
        }
      }
      Run(g', evs[1..])
  }

  // ---------------------------------------------------------------------------
  // Counting settled images

  lemma {:induction false} SettledCountAppend(s: seq<Status>, x: Status)
    ensures SettledCount(s + [x]) == SettledCount(s) + (if x == Pending then 0 else 1)
  {
    assert (s + [x])[..|s|] == s;
  }

  /** Settling a pending image adds exactly one to the count. */
  lemma {:induction false} SettledCountUpdate(s: seq<Status>, i: nat, x: Status)
    requires i < |s| && s[i] == Pending && x != Pending
    ensures SettledCount(s[i := x]) == SettledCount(s) + 1
  {
    var t := s[i := x];
    if i == |s| - 1 {
      assert t[..|t| - 1] == s[..|s| - 1];
    } else {
      SettledCountUpdate(s[..|s| - 1], i, x);
      assert t[..|t| - 1] == s[..|s| - 1][i := x];
    }
  }

  /** The count reaches the total exactly when no image is pending. */
  lemma {:induction false} SettledCountFull(s: seq<Status>)
    ensures SettledCount(s) == |s| <==> forall i :: 0 <= i < |s| ==> s[i] != Pending
  {
    if s != [] {
      var p := s[..|s| - 1];
      SettledCountFull(p);
      assert forall i :: 0 <= i < |p| ==> p[i] == s[i];
    }
  }

  // ---------------------------------------------------------------------------
  // The snapshot

  /** The state after registering a prefix of the snapshot: the listed images are pending or
      loaded as `complete` says, the counter counts the settled ones, and the reveal has run
      once exactly when the counter has reached the total. */
  ghost predicate RegisteredState(g: Gate, total: nat, complete: seq<bool>)
  {
    |g.status| == |complete| &&
    (forall i :: 0 <= i < |complete| ==> g.status[i] == if complete[i] then Loaded else Pending) &&
    g.loaded == SettledCount(g.status) &&
    g.screen.revealCount == (if g.loaded == total then 1 else 0) &&
    Consistent(g.screen)
  }

  /** Registering one more image extends the registered state. */
  lemma RegisterStep(g: Gate, total: nat, complete: seq<bool>, c: bool)
    requires |complete| < total && RegisteredState(g, total, complete)
    ensures RegisteredState(Register(g, total, c), total, complete + [c])
  {
    SettledCountAppend(g.status, if c then Loaded else Pending);
  }

  lemma {:induction false} RegisteredPrefix(total: nat, complete: seq<bool>)
    requires 0 < total && |complete| <= total
    ensures RegisteredState(Registered(total, complete), total, complete)
  {
    if complete != [] {
      var p := complete[..|complete| - 1];
      RegisteredPrefix(total, p);
      RegisterStep(Registered(total, p), total, p, complete[|complete| - 1]);
      assert p + [complete[|complete| - 1]] == complete;
    }
  }

  /** `waitForImages` leaves one state per snapshotted image, counts the complete ones, and
      satisfies the invariant; in particular an empty snapshot reveals at once and schedules
      one removal, and otherwise the page is revealed at this point only if every image
      was already complete. */
  lemma StartSnapshot(complete: seq<bool>)
    ensures var g := Start(complete);
      Inv(g) &&
      |g.status| == |complete| &&
      (forall i :: 0 <= i < |complete| ==> g.status[i] == if complete[i] then Loaded else Pending) &&
      (g.screen.contentVisible <==> forall i :: 0 <= i < |complete| ==> complete[i]) &&
      (|complete| == 0 ==> g.screen.revealCount == 1 && g.screen.removalsScheduled == 1)
  {
    var g := Start(complete);
    if |complete| > 0 {
      RegisteredPrefix(|complete|, complete);
      SettledCountFull(g.status);
    }
  }

  /** querySelectorAll('img') runs after the page is appended, so it sees the page's images and
      the overlay's own loading GIF: the snapshot is never empty, and the page is revealed at
      snapshot time only if the GIF and every page image were already complete. */
  function Snapshot(pageComplete: seq<bool>, gifComplete: bool): (s: seq<bool>)
    ensures |s| == |pageComplete| + 1
    ensures multiset(s) == multiset(pageComplete) + multiset{gifComplete}
  {
    pageComplete + [gifComplete]
  }

  lemma SnapshotRevealsOnlyWhenAllComplete(pageComplete: seq<bool>, gifComplete: bool)
    ensures Start(Snapshot(pageComplete, gifComplete)).screen.contentVisible <==>
      gifComplete && forall i :: 0 <= i < |pageComplete| ==> pageComplete[i]
  {
    var s := Snapshot(pageComplete, gifComplete);
    StartSnapshot(s);
    assert s[|pageComplete|] == gifComplete;
    assert forall i :: 0 <= i < |pageComplete| ==> s[i] == pageComplete[i];
  }

  // ---------------------------------------------------------------------------
  // Settling

  /** One load or error event on a pending image: only that image changes state, the counter
      grows by one, and the reveal runs now exactly when this was the last pending image. It
      needs only that the counter counts the settled images, so the 404 gate reuses it. */
  lemma SettleCounts(g: Gate, i: nat, ok: bool)
    requires i < |g.status| && g.status[i] == Pending
    requires g.loaded == SettledCount(g.status)
    ensures var g' := Settle(g, i, ok);
      g'.status == g.status[i := if ok then Loaded else Failed] &&
      g'.loaded == g.loaded + 1 &&
      g'.loaded == SettledCount(g'.status) &&
      g'.screen == if g'.loaded == |g.status| then Reveal(g.screen) else g.screen
  {
    SettledCountUpdate(g.status, i, if ok then Loaded else Failed);
  }

  /** Settling keeps the invariant, so `loadedCount <= totalImages` and the reveal runs once,
      when the count first equals the total; a failed image counts like a loaded one. */
  lemma SettleKeepsInv(g: Gate, i: nat, ok: bool)
    requires Inv(g) && i < |g.status| && g.status[i] == Pending
    ensures Inv(Settle(g, i, ok))
    ensures Settle(g, i, ok).loaded <= |g.status|
    ensures Settle(g, i, ok).screen.revealCount - g.screen.revealCount == if g.loaded + 1 == |g.status| then 1 else 0
  {
    SettleCounts(g, i, ok);
  }

  /** Under the invariant, the page is visible exactly when no image is pending. */
  lemma RevealedIffAllSettled(g: Gate)
    requires Inv(g)
    ensures g.screen.contentVisible <==> forall i :: 0 <= i < |g.status| ==> g.status[i] != Pending
  {
    SettledCountFull(g.status);
  }

  /** The counter counts the settled images: the part of the invariant that the 404 gate
      keeps too, even after its timeout has forced the reveal. */
  ghost predicate Counted(g: Gate)
  {
    g.loaded == SettledCount(g.status)
  }

  /** After the first event the rest can still be delivered. */
  lemma ScheduleTail(g: Gate, evs: seq<Event>)
    requires Schedulable(g, evs) && evs != []
    ensures Schedulable(Settle(g, evs[0].image, evs[0].ok), evs[1..])
  {
    var g' := Settle(g, evs[0].image, evs[0].ok);
    var rest := evs[1..];
    forall k | 0 <= k < |rest|
      ensures rest[k].image < |g'.status| && g'.status[rest[k].image] == Pending
    {
      assert rest[k] == evs[k + 1];
    }
  }

  /** The image states after a run: each image named by an event ends Loaded or Failed as its
      event says, and every other image keeps its state. */
  lemma {:induction false} RunStatus(g: Gate, evs: seq<Event>)
    requires Schedulable(g, evs)
    decreases |evs|
    ensures var r := Run(g, evs);
      |r.status| == |g.status| &&
      forall j :: 0 <= j < |g.status| ==>
        r.status[j] == if Event(j, true) in evs then Loaded
                       else if Event(j, false) in evs then Failed
                       else g.status[j]
  {
    if evs != [] {
      var e := evs[0];
      var rest := evs[1..];
      ScheduleTail(g, evs);
      RunStatus(Settle(g, e.image, e.ok), rest);
      assert evs == [e] + rest;
      assert Event(e.image, true) !in rest && Event(e.image, false) !in rest by {
        forall k | 0 <= k < |rest| ensures rest[k].image != e.image {
          assert rest[k] == evs[k + 1];
        }
      }
    }
  }

  /** The counter after a run: it grows by the number of events and still counts the settled
      images, and the reveal block has run once more exactly when the run brought the counter
      to the total. */
  lemma {:induction false} RunCount(g: Gate, evs: seq<Event>)
    requires Counted(g) && Schedulable(g, evs)
    decreases |evs|
    ensures var r := Run(g, evs);
      Counted(r) && r.loaded == g.loaded + |evs| &&
      r.screen == (if evs != [] && r.loaded == |g.status| then Reveal(g.screen) else g.screen)
  {
    if evs != [] {
      var e := evs[0];
      var g' := Settle(g, e.image, e.ok);
      var rest := evs[1..];
      SettleCounts(g, e.image, e.ok);
      ScheduleTail(g, evs);
      RunCount(g', rest);
      if rest != [] {
        SettledCountFull(g'.status);
        assert g'.status[rest[0].image] == Pending;
      }
    }
  }

  /** What a run of events does: the image states as `RunStatus` says, the counter and the
      screen as `RunCount` says; under the gate's invariant the invariant holds at the end. */
  lemma RunEffect(g: Gate, evs: seq<Event>)
    requires Counted(g) && Schedulable(g, evs)
    ensures var r := Run(g, evs);
      Counted(r) && |r.status| == |g.status| && r.loaded == g.loaded + |evs| &&
      r.screen == (if evs != [] && r.loaded == |g.status| then Reveal(g.screen) else g.screen) &&
      forall j :: 0 <= j < |g.status| ==>
        r.status[j] == if Event(j, true) in evs then Loaded
                       else if Event(j, false) in evs then Failed
                       else g.status[j]
    ensures Inv(g) ==> Inv(Run(g, evs))
  {
    RunStatus(g, evs);
    RunCount(g, evs);
    if evs != [] {
      SettledCountFull(g.status);
      assert g.status[evs[0].image] == Pending;
    }
  }

  /** Order independence: delivering the same events in any order leaves the same gate. It
      needs only that the counter counts the settled images. */
  lemma RunOrderIndependent(g: Gate, a: seq<Event>, b: seq<Event>)
    requires Counted(g) && Schedulable(g, a) && Schedulable(g, b)
    requires multiset(a) == multiset(b)
    ensures Run(g, a) == Run(g, b)
  {
    RunEffect(g, a);
    RunEffect(g, b);
    assert |a| == |multiset(a)| == |multiset(b)| == |b|;
    assert forall e :: e in a <==> e in b by {
      forall e ensures e in a <==> e in b {
        assert e in a <==> e in multiset(a);
        assert e in b <==> e in multiset(b);
      }
    }
    assert Run(g, a).status == Run(g, b).status;
  }

  /** Once every pending image has fired load or error, in whatever order, the page has been
      revealed exactly once and one overlay removal has been scheduled. */
  lemma AllSettledRevealsOnce(g: Gate, evs: seq<Event>)
    requires Inv(g) && Schedulable(g, evs)
    requires forall j :: 0 <= j < |g.status| && g.status[j] == Pending ==>
      Event(j, true) in evs || Event(j, false) in evs
    ensures Run(g, evs).screen.contentVisible && Run(g, evs).screen.overlayHidden
    ensures Run(g, evs).screen.revealCount == 1 && Run(g, evs).screen.removalsScheduled == 1
  {
    RunEffect(g, evs);
    RevealedIffAllSettled(Run(g, evs));
  }

  // ---------------------------------------------------------------------------
  // The page, event by event

  class Page {
    var started: bool                 // waitForImages has run
    var status: seq<Status>           // one state per snapshotted image
    var loaded: nat                   // loadedCount
    var contentVisible: bool          // app.style.display == 'block'
    var overlayHidden: bool           // loadingScreen has class 'hidden'
    var revealCount: nat                  // reveal blocks run
    var removalsScheduled: nat        // overlay removals scheduled

    function View(): Gate
      reads this
    {
      Gate(status, loaded, Screen(contentVisible, overlayHidden, revealCount, removalsScheduled))
    }

    ghost predicate Valid()
      reads this
    {
      if started then Inv(View()) else View() == Fresh()
    }

    /** The page script up to the snapshot: overlay shown, `app.style.display = 'none'`. */
    constructor ()
      ensures Valid() && !started && View() == Fresh()
    {
      started := false;
      status, loaded := [], 0;
      contentVisible, overlayHidden, revealCount, removalsScheduled := false, false, 0, 0;
    }

    method RevealNow()
      modifies this
      ensures View() == old(View()).(screen := Reveal(old(View()).screen))
      ensures started == old(started)
    {
      overlayHidden := true;
      contentVisible := true;
      removalsScheduled := removalsScheduled + 1;
      revealCount := revealCount + 1;
    }

    /** `waitForImages()`: snapshot once, then register every image in order. */
    method WaitForImages(complete: seq<bool>)
      requires Valid() && !started
      modifies this
      ensures Valid() && started
      ensures View() == Start(complete)
    {
      var total := |complete|;
      if total == 0 {
        RevealNow();
        started := true;
        StartSnapshot(complete);
        return;
      }
      var i := 0;
      while i < total
        invariant 0 <= i <= total && !started
        invariant View() == Registered(total, complete[..i])
      {
        assert complete[..i + 1][..i] == complete[..i];
        if complete[i] {
          status := status + [Loaded];
          loaded := loaded + 1;
          if loaded == total {
            RevealNow();
          }
        } else {
          status := status + [Pending];
        }
        i := i + 1;
      }
      assert complete[..i] == complete;
      started := true;
      StartSnapshot(complete);
    }

    /** The load (ok) or error (not ok) listener of image i. */
    method OnSettle(i: nat, ok: bool)
      requires Valid() && started
      requires i < |status| && status[i] == Pending
      modifies this
      ensures Valid() && started
      ensures View() == Settle(old(View()), i, ok)
    {
      SettleKeepsInv(View(), i, ok);
      status := status[i := if ok then Loaded else Failed];
      loaded := loaded + 1;
      if loaded == |status| {
        RevealNow();
      }
    }
  }
}
