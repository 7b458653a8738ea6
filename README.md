# Studio site page scripts: the reveal gate and the page widgets

This project models, in Dafny, the pieces of state logic inside the studio website's
hand-written page scripts and proves what they promise.

- **The image-load reveal gate** (`waitForImages`). Each page hides its app container behind a
  loading overlay. After the page is appended, the gate takes one snapshot of every `<img>`.
  Each image is counted once: at registration if it is already `complete`, otherwise on its
  `load` or `error` event. When the count reaches the total, the gate reveals the page. It sets
  the container's display to `block`, adds `hidden` to the overlay and schedules the overlay's
  removal 500 ms later. The six copies are identical. They are `privacy.js:191-230`,
  `app.js:44-83`, `terms.js:182-221`, `whoWeAre.js:41-80`, `careers.js:309-348` and
  `news.js:100-139`. One model (module `ImageGate`) covers all six, and the table below cites
  the privacy page's copy.
- **The 404 page's resource gate** (`waitForResources`, module `ResourceGate`). It also counts
  the `dotlottie-player` elements, which settle on `ready` or `error`. It adds a 10 s fallback
  timeout, and that timeout has no latch. When the timeout reveals the page early, the last
  settlement runs the reveal block a second time and schedules a second removal. The
  player's error fallback (module `NotFoundSection`) hides the player and inserts a text just
  before the home button.
- **Index-cycling widgets**:
  - the promo page's step slider, moved by buttons and by swipes with a 50 px threshold (module
    `NounsHunt`, which also holds the leaderboard rows and the avatar hover);
  - the who-we-are slideshow, with one opaque slide, and its commitments accordion, with one
    expanded card (module `WhoWeAre`);
  - the wrap-around arithmetic they share (module `Cyclic`).
- **Small mappings and toggles**:
  - the nav link targets and the hamburger menu (module `Navigation`). The nav ternary is
    identical at `privacy.js:283`, `app.js:126`, `terms.js:274`, `whoWeAre.js:139`,
    `careers.js:409` and `news.js:215`. The two-line toggle is identical at `privacy.js:361-364`,
    `app.js:215-218`, `terms.js:352-355`, `whoWeAre.js:224-227`, `careers.js:496-499` and
    `news.js:301-304`;
  - the landing page's tag colour (module `Home`);
  - the news page's re-rendered grid and its card width (module `News`).

Each gate is a state machine on values, defined by `Start`, `Settle` and, for the 404 page,
`Timeout`. The lemmas state the gate's properties on those values. A class (`ImageGate.Page`,
`ResourceGate.NotFoundPage`) replays the script's mutable closure one browser event at a time.
Each of its methods is proved to produce the state the specification function gives.

The browser is abstracted:

- an image is reduced to whether it is `complete` at registration;
- each `load`, `error`, `ready` or timer callback becomes a method call;
- the container, the overlay, the slides, the cards and the table rows are reduced to the
  flags and values that the scripts write.

## Model

| member | source | states |
|---|---|---|
| `Overlay.Initial` | privacy.js:183-188 | Before the wait starts, the container is hidden, the overlay is shown, and nothing is revealed or scheduled. |
| `Overlay.Reveal` | privacy.js:197-199 | After the reveal block, the container is visible and the overlay hidden, with one more reveal and one more 500 ms removal scheduled. |
| `Overlay.RevealAgainKeepsView` | 404.js:161-166 | Running the reveal block a second time changes no visible flag. Only the removal counter grows. |
| `ImageGate.SettledCount` | privacy.js:193 | The number of settled images never exceeds the number of images. |
| `ImageGate.CountOne` | privacy.js:205-210 | No contract of its own: `loadedCount++` and the reveal when the count equals the total. `ImageGate.SettleCounts` and `ImageGate.RegisterStep` state its effect. |
| `ImageGate.Register` | privacy.js:204-228 | No contract of its own: one `forEach` step, counted at once if `complete`, otherwise left pending. `ImageGate.RegisterStep` states what it preserves. |
| `ImageGate.Registered` | privacy.js:203-229 | No contract of its own: the `forEach` over a prefix of the snapshot. `ImageGate.RegisteredPrefix` states its result. |
| `ImageGate.Start` | privacy.js:191-230 | No contract of its own: `waitForImages`, with the zero-image early return. `ImageGate.StartSnapshot` and `ImageGate.SnapshotRevealsOnlyWhenAllComplete` state its properties. |
| `ImageGate.Settle` | privacy.js:212-227 | No contract of its own: the load and error listeners, which behave alike. `ImageGate.SettleCounts` and `ImageGate.SettleKeepsInv` state its properties. |
| `ImageGate.Run` | privacy.js:212-227 | No contract of its own: the listeners firing one after another in a given order. `ImageGate.RunEffect`, `ImageGate.RunOrderIndependent` and `ImageGate.AllSettledRevealsOnce` state its properties. |
| `ImageGate.SettledCountUpdate` | privacy.js:212-227 | Settling a pending image adds exactly one to the count. |
| `ImageGate.SettledCountFull` | privacy.js:206 | The count equals the total exactly when no image is pending. |
| `ImageGate.RegisteredPrefix` | privacy.js:203-211 | After registering a prefix of the snapshot: complete images are loaded and counted, the others pend, and the reveal has run exactly when the count has reached the total. |
| `ImageGate.StartSnapshot` | privacy.js:191-230 | `waitForImages` leaves one state per snapshotted image, counts the complete ones and keeps the gate invariant. The page is visible iff every image was complete. An empty snapshot reveals at once with one removal scheduled. |
| `ImageGate.Snapshot` | privacy.js:183-185 | The snapshot holds the page's images plus the overlay's loading GIF, so it has one more element than the page and is never empty. |
| `ImageGate.SnapshotRevealsOnlyWhenAllComplete` | privacy.js:734-737 | Because the snapshot includes the GIF, the page is revealed at snapshot time iff the GIF and every page image were already complete. |
| `ImageGate.SettleCounts` | privacy.js:212-227 | A load or error event on a pending image changes only that image's state and adds one to the counter. It reveals iff that image was the last pending one. |
| `ImageGate.SettleKeepsInv` | privacy.js:204-227 | Each settlement keeps the invariant: `loadedCount <= totalImages`, and the reveal has run once iff every image is settled. Error counts like load. The reveal runs only on the settlement that reaches the total. |
| `ImageGate.RevealedIffAllSettled` | privacy.js:206-208 | Under the invariant, content is visible iff no image is pending. |
| `ImageGate.RunStatus` | privacy.js:212-227 | After a run of events, each named image is loaded or failed as its event says, and every other image keeps its state. |
| `ImageGate.RunCount` | privacy.js:212-227 | Whenever the counter counts the settled images, a run grows it by the number of events and it still counts them. The reveal block runs once more exactly when the run brings the counter to the total. |
| `ImageGate.RunEffect` | privacy.js:212-227 | Whenever the counter counts the settled images, a run of events leaves each named image loaded or failed as its event says and the others as they were. The counter grows by the number of events, and the reveal block runs once more exactly when the run brings the counter to the total. Under the gate invariant the invariant holds at the end. |
| `ImageGate.RunOrderIndependent` | privacy.js:203-229 | Whenever the counter counts the settled images, two orders of the same events yield the same final gate. |
| `ImageGate.AllSettledRevealsOnce` | privacy.js:204-227 | Once every pending image has fired load or error, in any order, the page has been revealed exactly once with one removal scheduled. |
| `ImageGate.Page.constructor` | privacy.js:187-188 | The page starts with nothing snapshotted, the container hidden and the overlay shown. |
| `ImageGate.Page.RevealNow` | privacy.js:207-209 | The three-statement reveal: container `block`, overlay `hidden`, one removal scheduled. |
| `ImageGate.Page.WaitForImages` | privacy.js:191-211 | The snapshot loop leaves exactly the state `Start` specifies and the invariant holds. |
| `ImageGate.Page.OnSettle` | privacy.js:212-227 | A load or error listener of a pending image leaves the state `Settle` specifies and keeps the invariant. |
| `ResourceGate.Start` | 404.js:141-188 | No contract of its own: `waitForResources` with the zero-resource early return, the image loop, the player loop and the armed timeout. `ResourceGate.StartSnapshot` states its result. |
| `ResourceGate.Settle` | 404.js:158-167 | No contract of its own: `checkAllLoaded`, as called by any image or player event. `ResourceGate.SettleKeepsInv` states its properties. |
| `ResourceGate.Timeout` | 404.js:190-197 | No contract of its own: the 10 s callback. `ResourceGate.TimeoutKeepsInv` states its properties. |
| `ResourceGate.Run` | 404.js:158-187 | No contract of its own: image and player events firing one after another in a given order. `ResourceGate.RunKeepsInv`, `ResourceGate.RunOrderIndependent` and `ResourceGate.AllSettledReveals` state its properties. |
| `ResourceGate.StartSnapshot` | 404.js:141-188 | The total is images plus players, taken once. Complete images are counted, every player pends, and the timeout is armed iff the total is positive. The page is visible at once iff there are no players and all images are complete, and in particular when there are no resources. |
| `ResourceGate.SettleKeepsInv` | 404.js:158-167 | `checkAllLoaded` adds one to the counter, which stays at or below the total. It keeps the invariant and never hides a visible page. |
| `ResourceGate.TimeoutKeepsInv` | 404.js:190-197 | The timeout always leaves the page visible. It runs the reveal iff `loadedCount < totalResources`, and otherwise changes nothing. |
| `ResourceGate.AtMostTwoReveals` | 404.js:158-197 | Without a latch the reveal runs at most twice, and it runs twice exactly when the timeout forced it and every resource settled afterwards. |
| `ResourceGate.NoLatchSecondReveal` | 404.js:161-196 | On the 404 page (a GIF and one player), the timeout reveals first. The player's `ready` then reveals again and schedules a second removal, and the visible flags stay the same. |
| `ResourceGate.RunKeepsInv` | 404.js:158-187 | Any run of events keeps the invariant, even after the timeout forced the reveal. The counter grows by the number of events, and a visible page stays visible. |
| `ResourceGate.RunOrderIndependent` | 404.js:158-187 | The same image and player events in any order leave the same state, whether or not the timeout has fired. |
| `ResourceGate.AllSettledReveals` | 404.js:158-197 | Once every pending resource has fired, in any order, the page is visible. The reveal block has run once, or twice if the timeout forced it first. |
| `ResourceGate.NotFoundPage.constructor` | 404.js:137-138 | The page starts with no timer armed, the container hidden and the overlay shown. |
| `ResourceGate.NotFoundPage.RevealNow` | 404.js:163-165 | The reveal block applied to the page's screen. |
| `ResourceGate.NotFoundPage.CheckAllLoaded` | 404.js:158-167 | Adds one to the counter and reveals when it equals the total. |
| `ResourceGate.NotFoundPage.RegisterImages` | 404.js:169-179 | The image loop registers the images as the image gate does, against the combined total. |
| `ResourceGate.NotFoundPage.RegisterPlayers` | 404.js:181-187 | Every player is appended as pending, after the images. |
| `ResourceGate.NotFoundPage.WaitForResources` | 404.js:141-198 | Leaves exactly the state `Start` specifies, with the invariant. |
| `ResourceGate.NotFoundPage.OnSettle` | 404.js:173-186 | An image or player event leaves the state `Settle` specifies and keeps the invariant. |
| `ResourceGate.NotFoundPage.OnTimeout` | 404.js:190-197 | The 10 s callback leaves the state `Timeout` specifies and keeps the invariant. |
| `NotFoundSection.InsertBefore` | 404.js:250 | No contract of its own: `insertBefore` on the section's children. `NotFoundSection.InsertBeforeSplices` and `NotFoundSection.InsertedJustBefore` state its result. |
| `NotFoundSection.InsertBeforeSplices` | 404.js:250 | `insertBefore` splices the new node in just before the first occurrence of the reference node and keeps every other child in order. |
| `NotFoundSection.InsertedJustBefore` | 404.js:250 | The inserted node takes the reference node's old position, and the reference node follows it. |
| `NotFoundSection.ErrorSection.constructor` | 404.js:258 | The section's children are title, message, player and home button, and the player is shown. |
| `NotFoundSection.ErrorSection.OnPlayerError` | 404.js:243-251 | A player error hides the player and inserts a fallback text before the home button, which stays in the section. |
| `NotFoundSection.FirstErrorLayout` | 404.js:243-258 | After one error the section reads title, message, player, fallback text, home button. |
| `Cyclic.Next` | nounshunt.js:436 | Forward stays in range, moves up by one, and wraps from the last index to 0. |
| `Cyclic.Back` | nounshunt.js:419 | Back stays in range, moves down by one, and wraps from 0 to the last index. |
| `Cyclic.NextBackInverse` | nounshunt.js:419-437 | Next then back, and back then next, return to the original index. |
| `Cyclic.Advance` | whoWeAre.js:303-308 | Any number of automatic advances keeps the index in range. |
| `Cyclic.AdvanceShifts` | whoWeAre.js:301-308 | k advances from slide i land on `(i + k) % n`. |
| `Cyclic.FullCycle` | whoWeAre.js:298-308 | After `totalSlides` advances the current slide is back where it started. |
| `NounsHunt.Render` | nounshunt.js:380-455 | No contract of its own: the three nodes `updateSlider` appends. `NounsHunt.RenderShowsStep` states what they show. |
| `NounsHunt.RenderShowsStep` | nounshunt.js:380-455 | The slider shows three nodes. The caption is `"<i+1>. <text>"` and the screenshot is `assets/<img>` of the current step, with the buttons between them. |
| `NounsHunt.SwipeDirection` | nounshunt.js:465-474 | A swipe goes forward iff start−end > 50, back iff end−start > 50, and is ignored iff the difference is within 50 either way. |
| `NounsHunt.AfterSwipe` | nounshunt.js:465-474 | A swipe keeps the index in range. A forward swipe moves to `Next`, a backward swipe to `Back`, and an ignored swipe leaves the index unchanged. |
| `NounsHunt.OppositeSwipesCancel` | nounshunt.js:467-473 | A swipe followed by the reverse swipe returns to the same step. |
| `NounsHunt.StepSlider.constructor` | nounshunt.js:371 | The slider starts at step 0 with its content rendered and both touch coordinates 0. |
| `NounsHunt.StepSlider.UpdateSlider` | nounshunt.js:380-455 | The content is replaced wholesale by the current step's rendering. |
| `NounsHunt.StepSlider.ClickNext` | nounshunt.js:435-438 | The next button moves to `Next` of the index and re-renders. |
| `NounsHunt.StepSlider.ClickBack` | nounshunt.js:418-421 | The back button moves to `Back` of the index and re-renders. |
| `NounsHunt.StepSlider.TouchStart` | nounshunt.js:461-463 | Records the start coordinate. |
| `NounsHunt.StepSlider.TouchEnd` | nounshunt.js:465-474 | The index moves as `SwipeDirection` of the last start and this end decides. An ignored swipe leaves the content untouched. |
| `NounsHunt.AvatarSrc` | nounshunt.js:667-674 | No contract of its own: the avatar file name, resting or hovered. `NounsHunt.AvatarSrcDiffer` states that the two differ. |
| `NounsHunt.RowOf` | nounshunt.js:645-684 | No contract of its own: the row built for one record, with the resting avatar. `NounsHunt.FillTable` states that the rows are these, in order. |
| `NounsHunt.AvatarSrcDiffer` | nounshunt.js:667-674 | The hover image and the resting image of an avatar are different files. |
| `NounsHunt.FillTable` | nounshunt.js:642-685 | The body is cleared, then holds exactly min(10, n) rows, row k built from record k in response order. |
| `NounsHunt.AvatarImage.constructor` | nounshunt.js:667 | The avatar starts on `avatars/<avatar>.png`. |
| `NounsHunt.AvatarImage.MouseEnter` | nounshunt.js:669-671 | The pointer entering switches to `avatars/<avatar>_active.png`. |
| `NounsHunt.AvatarImage.MouseLeave` | nounshunt.js:672-674 | The pointer leaving restores `avatars/<avatar>.png`, whatever came before. |
| `WhoWeAre.Slideshow.constructor` | whoWeAre.js:263-281 | Exactly slide 0 is opaque and the current slide is 0. |
| `WhoWeAre.Slideshow.ShowNextSlide` | whoWeAre.js:301-305 | Exactly one slide stays opaque, and it is `Next` of the previous one. |
| `WhoWeAre.Accordion.constructor` | whoWeAre.js:541-616 | Exactly card 0 is expanded (250px, bio shown, plus hidden). Every other card is collapsed. |
| `WhoWeAre.Accordion.Click` | whoWeAre.js:620-633 | Exactly one card stays expanded, and it is the clicked one. Clicking the expanded card changes nothing, and no third card is touched. |
| `Navigation.NavHref` | privacy.js:283 | `who-we-are.html` iff the label is 'WHO WE ARE', `careers.html` iff 'CAREERS', and `news.html` for every other label. |
| `Navigation.NavLinksDistinct` | privacy.js:272-284 | The three nav labels lead to three different pages. 'NEWS' reaches the news page through the fallback. |
| `Navigation.Menu.constructor` | privacy.js:266-271 | Neither element starts with `active`, and the nav background is unset. |
| `Navigation.Menu.Click` | privacy.js:361-364 | A click flips `active` on both the nav list and the hamburger, so the two flags stay equal. |
| `Navigation.Menu.ClickAndPaint` | nounshunt.js:136-142 | The same toggle, then the nav is white when active and transparent otherwise. |
| `Navigation.ClickTwice` | privacy.js:361-364 | Two clicks restore both flags. |
| `Home.TagColour` | app.js:591 | #00D4FF iff the tag is 'NEWS', #FF4500 iff 'VIDEO', and #FFC400 for every other tag, 'EXCL: DASH STUDIOS' included. |
| `Home.ExclusiveTagUsesFallback` | app.js:591 | The exclusive tag's colour is the same as the fallback colour. |
| `News.CardWidth` | news.js:346-347 | '100%' iff the viewport is narrower than 768 px, '45%' from 768 px up. |
| `News.CardWidthMonotone` | news.js:347 | The threshold is strict (767 gives full width, 768 gives half), and a narrower viewport never gets a wider card. |
| `News.CardFor` | news.js:349-422 | No contract of its own: the card built for one article, with its image under `assets/`. `News.BuildCards` states that the cards are these, in order. |
| `News.BuildCards` | news.js:349-423 | One card per article in array order, all with the width the viewport chose. |
| `News.NewsSection.RenderNews` | news.js:333-426 | After a render the section holds exactly a title and one container with those cards, whatever it held before, so repeated renders on resize never accumulate. |

## Left out

- The DOM, CSS text, inline style values, viewport-dependent sizing functions, media queries,
  scroll fade-ins and hover animations other than the avatar's are presentation and are not
  modelled.
- Timers are not clocks. A scheduled overlay removal is counted and never fired. The 10 s
  timeout and the slideshow's 5 s interval are method calls made by the caller. The fade is not
  modelled.
- The leaderboard `fetch` calls, their `setInterval` refresh and their error logging are not
  modelled, because they are network I/O. `FillTable` models only what the response handler
  does with the parsed records. The same handler fills both tables. Number-to-text conversion
  of rank and score is left as the numbers themselves.
- The `console.log` and `console.warn` diagnostics of the 404 gate are not modelled.
- `ImageGate.Page.OnSettle` and `ResourceGate.NotFoundPage.OnSettle` require that a resource settles
  at most once. The model does not cover a player that fires both `ready` and `error`, nor an
  image that fires both `load` and `error`. With such events the script's counter could exceed
  its total.
- `NounsHunt.StepSlider.TouchEnd` takes `screenX` as a real number and does not model
  multi-touch.
- Where a new `<img>` is created after the snapshot, as on a news-page re-render on resize, the
  gate's total does not change. The model reflects this because the snapshot is fixed, but
  the model does not connect the news grid's images to the gate.
- The mail relay script (`forms/contact.php`) is not part of this model. It wraps PHP library
  functions whose rules are not visible here.
- The 404 gate has no latch against a second reveal. The model keeps that behaviour, and
  `ResourceGate.AtMostTwoReveals` bounds the reveal at two runs.
