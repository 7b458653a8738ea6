/** The 404 page's error section and its fallback for an animation player that fails:
    the player is hidden and a paragraph is inserted just before the home button. */
module NotFoundSection {

  /** The children of the error section, abstracted to what they are. */
  datatype Node = Title | Message | Player | FallbackText | HomeButton

  /** Position of the first occurrence of `x`. */
  function IndexOf(s: seq<Node>, x: Node): (k: nat)
    requires x in s
    ensures k < |s| && s[k] == x && x !in s[..k]
  {
    if s[0] == x then 0
    else
      assert s == [s[0]] + s[1..];
      1 + IndexOf(s[1..], x)
  }

  /** `parent.insertBefore(x, ref)` on a parent whose children are `s`, with `ref` a child. */
  function InsertBefore(s: seq<Node>, x: Node, ref: Node): seq<Node>
    requires ref in s
  {
    if s[0] == ref then [x] + s
    else
      assert s == [s[0]] + s[1..];
      [s[0]] + InsertBefore(s[1..], x, ref)
  }

  /** insertBefore splices `x` in immediately before the first occurrence of `ref` and keeps
      every other child in order. */
  lemma {:induction false} InsertBeforeSplices(s: seq<Node>, x: Node, ref: Node)
    requires ref in s
    ensures InsertBefore(s, x, ref) == s[..IndexOf(s, ref)] + [x] + s[IndexOf(s, ref)..]
  {
    var k := IndexOf(s, ref);
    if s[0] == ref {
      assert s[..k] == [] && s[k..] == s;
    } else {
      var t := s[1..];
      assert s == [s[0]] + t;
      InsertBeforeSplices(t, x, ref);
      var j := IndexOf(t, ref);
      assert k == j + 1;
      calc {
        InsertBefore(s, x, ref);
        [s[0]] + InsertBefore(t, x, ref);
        [s[0]] + (t[..j] + [x] + t[j..]);
        { assert [s[0]] + t[..j] == s[..k]; assert t[j..] == s[k..]; }
        s[..k] + [x] + s[k..];
      }
    }
  }

  /** The inserted node sits at the old position of `ref`, and `ref` right after it. */
  lemma InsertedJustBefore(s: seq<Node>, x: Node, ref: Node)
    requires ref in s
    ensures var k := IndexOf(s, ref);
      |InsertBefore(s, x, ref)| == |s| + 1 &&
      InsertBefore(s, x, ref)[k] == x && InsertBefore(s, x, ref)[k + 1] == ref
  {
    InsertBeforeSplices(s, x, ref);
  }

  class ErrorSection {
    var children: seq<Node>
    var playerShown: bool          // the player's style.display is not 'none'

    /** `errorSection.append(errorTitle, errorMessage, lottiePlayer, homeButton)`. */
    constructor ()
      ensures children == [Title, Message, Player, HomeButton] && playerShown
    {
      children := [Title, Message, Player, HomeButton];
      playerShown := true;
    }

    /** The player's 'error' listener: hide the player, put a fresh fallback paragraph just
        before the home button. */
    method OnPlayerError()
      requires HomeButton in children
      modifies this
      ensures !playerShown
      ensures children == InsertBefore(old(children), FallbackText, HomeButton)
      ensures HomeButton in children
    {
      playerShown := false;
      InsertBeforeSplices(children, FallbackText, HomeButton);
      children := InsertBefore(children, FallbackText, HomeButton);
    }
  }

  /** After one player error the section reads title, message, (hidden) player, fallback
      text, home button. */
  lemma FirstErrorLayout()
    ensures InsertBefore([Title, Message, Player, HomeButton], FallbackText, HomeButton) ==
      [Title, Message, Player, FallbackText, HomeButton]
  {
    InsertBeforeSplices([Title, Message, Player, HomeButton], FallbackText, HomeButton);
  }
}
