/** The studio landing page's news list: the colour of an article's tag badge. */
module Home {

  /** The badge colour: cyan for 'NEWS', orange-red for 'VIDEO', and amber both for
      'EXCL: DASH STUDIOS' and for every other tag. */
  function TagColour(tag: string): (colour: string)
    ensures colour == "#00D4FF" <==> tag == "NEWS"
    ensures colour == "#FF4500" <==> tag == "VIDEO"
    ensures colour == "#FFC400" <==> tag != "NEWS" && tag != "VIDEO"
  {
    if tag == "EXCL: DASH STUDIOS" then "#FFC400"
    else if tag == "NEWS" then "#00D4FF"
    else if tag == "VIDEO" then "#FF4500"
    else "#FFC400"
  }

  /** The exclusive tag has no colour of its own: it shares the fallback. */
  lemma ExclusiveTagUsesFallback(other: string)
    requires other != "NEWS" && other != "VIDEO"
    ensures TagColour("EXCL: DASH STUDIOS") == TagColour(other)
  {
  }
}
