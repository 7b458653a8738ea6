/** The who-we-are page's two selection widgets: the auto-advancing hero slideshow (exactly
    one slide shown) and the commitments accordion (exactly one card expanded). Both write
    the style of existing elements in place, so each is a class over an array. */
module WhoWeAre {
  import Cyclic

  class Slideshow {
    var shown: array<bool>   // slides[k].style.opacity == '1' (otherwise '0')
    var currentSlide: nat

    ghost predicate Valid()
      reads this, shown
    {
      0 < shown.Length && currentSlide < shown.Length &&
      forall k :: 0 <= k < shown.Length ==> (shown[k] <==> k == currentSlide)
    }

    /** `slideImages.map(...)` with opacity '1' for slide 0 only, and `currentSlide = 0`. */
    constructor (totalSlides: nat)
      requires 0 < totalSlides
      ensures Valid() && fresh(shown) && shown.Length == totalSlides && currentSlide == 0
    {
      shown := new bool[totalSlides](k => k == 0);
      currentSlide := 0;
    }

    /** `showNextSlide`: fade out the current slide, advance with wrap-around, fade in. */
    method ShowNextSlide()
      requires Valid()
      modifies this, shown
      ensures Valid() && shown == old(shown)
      ensures currentSlide == Cyclic.Next(old(currentSlide), shown.Length)
    {
      shown[currentSlide] := false;
      currentSlide := (currentSlide + 1) % shown.Length;
      shown[currentSlide] := true;
    }
  }

  /** The three styles of a commitment card that the click handler writes. */
  datatype CardStyle = CardStyle(heightPx: nat, bioShown: bool, plusOpacity: nat)

  /** 250px tall, bio displayed, '+' icon transparent. */
  const Expanded := CardStyle(250, true, 0)
  /** 120px tall, bio 'none', '+' icon shown. */
  const Collapsed := CardStyle(120, false, 1)

  class Accordion {
    var cards: array<CardStyle>
    var expandedCardIndex: nat

    ghost predicate Valid()
      reads this, cards
    {
      expandedCardIndex < cards.Length &&
      forall k :: 0 <= k < cards.Length ==> cards[k] == if k == expandedCardIndex then Expanded else Collapsed
    }

    /** `let expandedCardIndex = 0` and the cards built with that card expanded. */
    constructor (count: nat)
      requires 0 < count
      ensures Valid() && fresh(cards) && cards.Length == count && expandedCardIndex == 0
    {
      cards := new CardStyle[count](k => if k == 0 then Expanded else Collapsed);
      expandedCardIndex := 0;
    }

    /** The click listener of card `index`: collapse the expanded card, expand this one. A
        click on the card that is already expanded writes nothing. */
    method Click(index: nat)
      requires Valid() && index < cards.Length
      modifies this, cards
      ensures Valid() && cards == old(cards) && expandedCardIndex == index
      ensures index == old(expandedCardIndex) ==> unchanged(cards)
      ensures forall k :: 0 <= k < cards.Length && k != index && k != old(expandedCardIndex) ==>
        cards[k] == old(cards[k])
    {
      if index != expandedCardIndex {
        var prev := expandedCardIndex;
        cards[prev] := cards[prev].(heightPx := 120);
        cards[prev] := cards[prev].(bioShown := false);
        cards[prev] := cards[prev].(plusOpacity := 1);

        cards[index] := cards[index].(heightPx := 250);
        cards[index] := cards[index].(bioShown := true);
        cards[index] := cards[index].(plusOpacity := 0);

        expandedCardIndex := index;
      }
    }
  }
}
