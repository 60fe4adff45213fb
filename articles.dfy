/** The article catalogue and its queries; the catalogue, which the application loads from its data file, is a parameter. */
module Articles {
  import opened Wrappers
  import opened Seqs

  /** `Article`. */
  datatype Article = Article(
    id: string,
    title: string,
    subtitle: string,
    author: string,
    publishedAt: string,
    tags: seq<string>,
    regionTags: seq<string>,
    readingTime: nat,
    excerpt: string,
    body: string)

  /** `getArticles()`: the whole catalogue, as loaded. */
  function GetArticles(articles: seq<Article>): (r: seq<Article>)
    ensures r == articles
  {
    articles
  }

  /** The position of the first article with the id at or after `from`. */
  function FirstIndexWithId(articles: seq<Article>, id: string, from: nat): (r: Option<nat>)
    decreases |articles| - from
    ensures r.Some? ==> from <= r.value < |articles| && articles[r.value].id == id
    ensures r.Some? ==> forall j :: from <= j < r.value ==> articles[j].id != id
    ensures r.None? ==> forall j :: from <= j < |articles| ==> articles[j].id != id
  {
    if from >= |articles| then None
    else if articles[from].id == id then Some(from)
    else FirstIndexWithId(articles, id, from + 1)
  }

  /** `getArticleById(id)`: the first article with that id, or nothing when no id matches. */
  function GetArticleById(articles: seq<Article>, id: string): (r: Option<Article>)
    ensures r.Some? ==> r.value.id == id
    ensures r.Some? ==> exists i :: 0 <= i < |articles| && articles[i] == r.value
                                    && forall j :: 0 <= j < i ==> articles[j].id != id
    ensures r.None? <==> forall i :: 0 <= i < |articles| ==> articles[i].id != id
  {
    match FirstIndexWithId(articles, id, 0)
    case Some(i) => Some(articles[i])
    case None => None
  }

  predicate HasTag(a: Article, tag: string) {
    tag in a.tags
  }

  predicate InRegion(a: Article, region: string) {
    region in a.regionTags
  }

  /** `getArticlesByTag(tag)`: exactly the articles carrying the tag, in catalogue order. */
  function GetArticlesByTag(articles: seq<Article>, tag: string): (r: seq<Article>)
    ensures |r| <= |articles| && Subseq(r, articles)
    ensures forall i :: 0 <= i < |r| ==> tag in r[i].tags
    ensures forall i :: 0 <= i < |articles| && tag in articles[i].tags ==> articles[i] in r
    ensures forall a :: multiset(r)[a] == if tag in a.tags then multiset(articles)[a] else 0
  {
    var keep := (a: Article) => HasTag(a, tag);
    FilterMultiplicity(articles, keep);
    Filter(articles, keep)
  }

  /** `getArticlesByRegion(region)`: exactly the articles tagged with the region, in catalogue order. */
  function GetArticlesByRegion(articles: seq<Article>, region: string): (r: seq<Article>)
    ensures |r| <= |articles| && Subseq(r, articles)
    ensures forall i :: 0 <= i < |r| ==> region in r[i].regionTags
    ensures forall i :: 0 <= i < |articles| && region in articles[i].regionTags ==> articles[i] in r
    ensures forall a :: multiset(r)[a] == if region in a.regionTags then multiset(articles)[a] else 0
  {
    var keep := (a: Article) => InRegion(a, region);
    FilterMultiplicity(articles, keep);
    Filter(articles, keep)
  }
}
