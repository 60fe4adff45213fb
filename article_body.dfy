/** The article body: its paragraphs, and whether it is wrapped in the text-selection trigger. */
module ArticleBody {
  import opened Wrappers
  import opened Text
  import opened Seqs

  /** The blank line that separates paragraphs. */
  const ParagraphBreak: string := "\n\n"

  /** `body.split("\n\n").filter(Boolean)`. */
  function Paragraphs(body: string): (r: seq<string>)
    ensures forall i :: 0 <= i < |r| ==> r[i] != ""
    ensures forall i :: 0 <= i < |r| ==> !Contains(r[i], ParagraphBreak)
    ensures Subseq(r, Split(body, ParagraphBreak))
    ensures forall p :: p in Split(body, ParagraphBreak) && p != "" ==> p in r
    ensures forall p :: multiset(r)[p] == if p != "" then multiset(Split(body, ParagraphBreak))[p] else 0
  {
    var pieces := Split(body, ParagraphBreak);
    SplitPiecesAvoidSeparator(body, ParagraphBreak);
    var nonEmpty := (p: string) => p != "";
    FilterMultiplicity(pieces, nonEmpty);
    Filter(pieces, nonEmpty)
  }

  /** A body without empty pieces (no leading, trailing or doubled blank line) is its paragraphs joined by blank lines. */
  lemma ParagraphsJoinToBody(body: string)
    requires forall p :: p in Split(body, ParagraphBreak) ==> p != ""
    ensures Join(Paragraphs(body), ParagraphBreak) == body
  {
    var nonEmpty := (p: string) => p != "";
    FilterKeepsAll(Split(body, ParagraphBreak), nonEmpty);
    JoinSplit(body, ParagraphBreak);
  }

  /** What `ArticleBody` renders, with the handlers it passes on. */
  datatype BodyView<H> = Bare(paragraphs: seq<string>) | WithTrigger(paragraphs: seq<string>, onExplore: H, onSendToChat: H)

  /**
   * `ArticleBody({ body, onExplore, onSendToChat })`: the paragraphs, inside the selection
   * trigger exactly when `onExplore` is given; a missing `onSendToChat` becomes `noOp`.
   */
  function Render<H>(body: string, onExplore: Option<H>, onSendToChat: Option<H>, noOp: H): (r: BodyView<H>)
    ensures r.paragraphs == Paragraphs(body)
    ensures r.WithTrigger? <==> onExplore.Some?
    ensures r.WithTrigger? ==> r.onExplore == onExplore.value
    ensures r.WithTrigger? && onSendToChat.Some? ==> r.onSendToChat == onSendToChat.value
    ensures r.WithTrigger? && onSendToChat.None? ==> r.onSendToChat == noOp
  {
    match onExplore
    case Some(explore) => WithTrigger(Paragraphs(body), explore, onSendToChat.GetOr(noOp))
    case None => Bare(Paragraphs(body))
  }
}
