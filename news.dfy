/** The news page's article grid, rebuilt from scratch on every resize. */
module News {

  /** One entry of `newsArticles`. */
  datatype Article = Article(img: string, title: string, date: string, desc: string, link: string)

  /** One article card: its width, image, title, date, description and 'Read More' link. */
  datatype Card = Card(width: string, imgSrc: string, title: string, date: string, desc: string, href: string)

  /** The children of the news section after a render. */
  datatype SectionNode = Title | Container(cards: seq<Card>)

  /** Card width from the viewport: one card per row below 768 px, two per row from 768 px. */
  function CardWidth(innerWidth: int): (w: string)
    ensures w == "100%" <==> innerWidth < 768
    ensures w == "45%" <==> 768 <= innerWidth
  {
    if innerWidth < 768 then "100%" else "45%"
  }

  /** The threshold is strict and the choice is monotone: a viewport that gets full-width
      cards makes every narrower one get them too. */
  lemma CardWidthMonotone(narrow: int, wide: int)
    requires narrow <= wide
    ensures CardWidth(wide) == "100%" ==> CardWidth(narrow) == "100%"
    ensures CardWidth(767) == "100%" && CardWidth(768) == "45%"
  {
  }

  function CardFor(a: Article, width: string): Card
  {
    Card(width, "assets/" + a.img, a.title, a.date, a.desc, a.link)
  }

  /** The `for` loop of `renderNews`: one card per article, in array order, all of the width
      the viewport chose. */
  method BuildCards(articles: seq<Article>, innerWidth: int) returns (cards: seq<Card>)
    ensures |cards| == |articles|
    ensures forall i :: 0 <= i < |articles| ==> cards[i] == CardFor(articles[i], CardWidth(innerWidth))
  {
    var isMobile := innerWidth < 768;
    cards := [];
    var i := 0;
    while i < |articles|
      invariant 0 <= i <= |articles| && |cards| == i
      invariant forall k :: 0 <= k < i ==> cards[k] == CardFor(articles[k], CardWidth(innerWidth))
    {
      var article := articles[i];
      var wrapper := Card(if isMobile then "100%" else "45%", "assets/" + article.img,
                          article.title, article.date, article.desc, article.link);
      cards := cards + [wrapper];
      i := i + 1;
    }
  }

  class NewsSection {
    var children: seq<SectionNode>

    constructor ()
      ensures children == []
    {
      children := [];
    }

    /** `renderNews`: clear the section, put the title back, append a fresh container with the
        cards. The result does not depend on what was there before, so rendering again on
        resize leaves exactly one title and one container. */
    method RenderNews(articles: seq<Article>, innerWidth: int)
      modifies this
      ensures |children| == 2 && children[0] == Title && children[1].Container?
      ensures |children[1].cards| == |articles|
      ensures forall i :: 0 <= i < |articles| ==>
        children[1].cards[i] == CardFor(articles[i], CardWidth(innerWidth))
    {
      children := [];
      children := children + [Title];
      var cards := BuildCards(articles, innerWidth);
      children := children + [Container(cards)];
    }
  }
}
