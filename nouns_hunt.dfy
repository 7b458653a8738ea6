/** The game promo page: the step slider of the game overview (buttons and swipes) and the
    two leaderboard tables filled from the ranking service's response. */
module NounsHunt {
  import Cyclic

  // ---------------------------------------------------------------------------
  // Step slider

  /** One entry of the `steps` array: a caption and a screenshot file name. */
  datatype Step = Step(text: string, img: string)

  /** What `sliderContent` holds after `updateSlider`: the numbered caption, the wrapper with
      the back and next buttons, and the screenshot. */
  datatype SliderNode = Description(text: string) | NavButtons | Screenshot(src: string, alt: string)

  function DigitChar(d: nat): char
    requires d < 10
  {
    "0123456789"[d]
  }

  /** Decimal rendering of a natural number, as a template literal prints it. */
  function Decimal(n: nat): (s: string)
    ensures 0 < |s|
  {
    if n < 10 then [DigitChar(n)] else Decimal(n / 10) + [DigitChar(n % 10)]
  }

  /** The slider content for step i: "<i+1>. <text>", the buttons, and `assets/<img>`. */
  function Render(steps: seq<Step>, i: nat): seq<SliderNode>
    requires i < |steps|
  {
    [Description(Decimal(i + 1) + ". " + steps[i].text),
     NavButtons,
     Screenshot("assets/" + steps[i].img, "Screenshot " + Decimal(i + 1))]
  }

  /** Rendering always shows the current step's own caption and screenshot, under the
      1-based number of the step. */
  lemma RenderShowsStep(steps: seq<Step>, i: nat)
    requires i < |steps|
    ensures var r := Render(steps, i);
      |r| == 3 && r[1] == NavButtons &&
      r[0].Description? && r[0].text == Decimal(i + 1) + ". " + steps[i].text &&
      r[2].Screenshot? && r[2].src == "assets/" + steps[i].img
  {
  }

  datatype Swipe = Forward | Backward | Ignored

  /** The touchend rule: a leftward move of more than 50 px goes forward, a rightward move of
      more than 50 px goes back, anything within 50 px either way is ignored. */
  function SwipeDirection(startX: real, endX: real): (d: Swipe)
    ensures d == Forward <==> startX - endX > 50.0
    ensures d == Backward <==> endX - startX > 50.0
    ensures d == Ignored <==> -50.0 <= startX - endX <= 50.0
  {
    if startX - endX > 50.0 then Forward
    else if endX - startX > 50.0 then Backward
    else Ignored
  }

  /** The index after a swipe over n steps. */
  function AfterSwipe(i: nat, n: nat, d: Swipe): (j: nat)
    requires i < n
    ensures j < n
    ensures d == Forward ==> j == Cyclic.Next(i, n)
    ensures d == Backward ==> j == Cyclic.Back(i, n)
    ensures d == Ignored ==> j == i
  {
    match d
    case Forward => Cyclic.Next(i, n)
    case Backward => Cyclic.Back(i, n)
    case Ignored => i
  }

  /** A swipe one way followed by a swipe the other way returns to the same step. */
  lemma OppositeSwipesCancel(i: nat, n: nat, a: real, b: real)
    requires i < n
    requires SwipeDirection(a, b) != Ignored
    ensures AfterSwipe(AfterSwipe(i, n, SwipeDirection(a, b)), n, SwipeDirection(b, a)) == i
  {
    Cyclic.NextBackInverse(i, n);
  }

  class StepSlider {
    const steps: seq<Step>
    var currentIndex: nat
    var touchStartX: real
    var touchEndX: real
    var content: seq<SliderNode>

    ghost predicate Valid()
      reads this
    {
      |steps| > 0 && currentIndex < |steps| && content == Render(steps, currentIndex)
    }

    /** `let currentIndex = 0`, the touch coordinates at 0, and the initial `updateSlider()`. */
    constructor (steps: seq<Step>)
      requires |steps| > 0
      ensures Valid() && this.steps == steps && currentIndex == 0
      ensures touchStartX == 0.0 && touchEndX == 0.0
    {
      this.steps := steps;
      currentIndex := 0;
      touchStartX, touchEndX := 0.0, 0.0;
      content := [];
      new;
      UpdateSlider();
    }

    /** Clear the slider and append the caption, the buttons and the screenshot of the
        current step. */
    method UpdateSlider()
      requires currentIndex < |steps|
      modifies this`content
      ensures content == Render(steps, currentIndex)
    {
      var i := currentIndex;
      content := [];
      content := content + [Description(Decimal(i + 1) + ". " + steps[i].text)];
      content := content + [NavButtons];
      content := content + [Screenshot("assets/" + steps[i].img, "Screenshot " + Decimal(i + 1))];
    }

    /** The '>' button. */
    method ClickNext()
      requires Valid()
      modifies this`currentIndex, this`content
      ensures Valid() && currentIndex == Cyclic.Next(old(currentIndex), |steps|)
    {
      currentIndex := (currentIndex + 1) % |steps|;
      UpdateSlider();
    }

    /** The '<' button. */
    method ClickBack()
      requires Valid()
      modifies this`currentIndex, this`content
      ensures Valid() && currentIndex == Cyclic.Back(old(currentIndex), |steps|)
    {
      currentIndex := (currentIndex - 1 + |steps|) % |steps|;
      UpdateSlider();
    }

    /** touchstart: remember where the finger went down. */
    method TouchStart(x: real)
      modifies this`touchStartX
      ensures touchStartX == x
    {
      touchStartX := x;
    }

    /** touchend: compare with the last touchstart and move, or leave everything as it is. */
    method TouchEnd(x: real)
      requires Valid()
      modifies this`touchEndX, this`currentIndex, this`content
      ensures Valid() && touchEndX == x
      ensures currentIndex == AfterSwipe(old(currentIndex), |steps|, SwipeDirection(touchStartX, x))
      ensures SwipeDirection(touchStartX, x) == Ignored ==> content == old(content)
    {
      touchEndX := x;
      if touchStartX - touchEndX > 50.0 {
        currentIndex := (currentIndex + 1) % |steps|;
        UpdateSlider();
      } else if touchEndX - touchStartX > 50.0 {
        currentIndex := (currentIndex - 1 + |steps|) % |steps|;
        UpdateSlider();
      }
    }
  }

  // ---------------------------------------------------------------------------
  // Leaderboards

  /** One record of the ranking service's response. */
  datatype Record = Record(rank: int, username: string, avatar: string, score: int)

  /** One table row: rank cell, avatar image and user name, score cell. */
  datatype Row = Row(rank: int, avatarSrc: string, username: string, score: int)

  /** `data.slice(0, 10)`. */
  const MaxRows: nat := 10

  /** `avatars/<avatar>.png`, or `avatars/<avatar>_active.png` while the pointer is over it. */
  function AvatarSrc(avatar: string, active: bool): string
  {
    "avatars/" + avatar + (if active then "_active.png" else ".png")
  }

  /** The hover image and the resting image of an avatar are always different files. */
  lemma AvatarSrcDiffer(avatar: string)
    ensures AvatarSrc(avatar, true) != AvatarSrc(avatar, false)
  {
    assert |AvatarSrc(avatar, true)| == |AvatarSrc(avatar, false)| + 7;
  }

  function RowOf(r: Record): Row
  {
    Row(r.rank, AvatarSrc(r.avatar, false), r.username, r.score)
  }

  /** A `<tbody>` of one leaderboard table. */
  class TableBody {
    var rows: seq<Row>

    constructor ()
      ensures rows == []
    {
      rows := [];
    }
  }

  /** The response handler: clear the body, then append one row for each of the first ten
      records, in response order. Rows from an earlier refresh do not survive. */
  method FillTable(tbody: TableBody, data: seq<Record>)
    modifies tbody
    ensures |tbody.rows| == if |data| < MaxRows then |data| else MaxRows
    ensures forall k :: 0 <= k < |tbody.rows| ==> tbody.rows[k] == RowOf(data[k])
  {
    tbody.rows := [];
    var top := if |data| < MaxRows then data else data[..MaxRows];
    var i := 0;
    while i < |top|
      invariant 0 <= i <= |top|
      invariant |tbody.rows| == i
      invariant forall k :: 0 <= k < i ==> tbody.rows[k] == RowOf(data[k])
    {
      tbody.rows := tbody.rows + [RowOf(top[i])];
      i := i + 1;
    }
  }

  /** The avatar `<img>` of a row and its hover listeners. */
  class AvatarImage {
    const avatar: string
    var src: string

    constructor (avatar: string)
      ensures this.avatar == avatar && src == AvatarSrc(avatar, false)
    {
      this.avatar := avatar;
      src := AvatarSrc(avatar, false);
    }

    method MouseEnter()
      modifies this
      ensures src == AvatarSrc(avatar, true)
    {
      src := "avatars/" + avatar + "_active.png";
    }

    /** Restores the resting image whatever happened before. */
    method MouseLeave()
      modifies this
      ensures src == AvatarSrc(avatar, false)
    {
      src := "avatars/" + avatar + ".png";
    }
  }
}
