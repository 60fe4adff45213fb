/**
 * The "ejes" panel under an article: three suggested questions chosen by the article's tags,
 * and the click handler that sends one of them to the chat.
 */
module ArticleEjes {
  import opened Wrappers
  import opened Text
  import opened Types
  import opened Articles
  import opened ChatStore
  import opened ChatResponder
  import opened Storage
  import Profile

  /**
   * A question set: the first question is `lead + «title» + leadTail`, the other two are fixed.
   * The proofs below never look at the wording, only at this shape.
   */
  datatype QuestionSet = QuestionSet(lead: string, leadTail: string, second: string, third: string)

  /** The three questions of a set for an article titled `title`. */
  function Render(s: QuestionSet, title: string): (r: seq<string>)
    ensures |r| == 3
    ensures Contains(r[0], Guillemets(title))
    ensures r[1..] == [s.second, s.third]
  {
    ContainsInMiddle(s.lead, Guillemets(title), s.leadTail);
    [s.lead + Guillemets(title) + s.leadTail, s.second, s.third]
  }

  /** The keys of `byTag`, in declaration order. */
  const EjeKeys: seq<string> := ["Architecture", "Regional history", "Cultural heritage", "Art", "Music", "Literature"]

  /**
   * `Object.keys(byTag).find((k) => tags.includes(k))` from position `from` on: the first key,
   * in declaration order, that occurs anywhere among the tags.
   */
  function FirstKeyIndex(keys: seq<string>, tags: seq<string>, from: nat): (r: Option<nat>)
    decreases |keys| - from
    ensures r.Some? ==> from <= r.value < |keys| && keys[r.value] in tags
    ensures r.Some? ==> forall j :: from <= j < r.value ==> keys[j] !in tags
    ensures r.None? ==> forall j :: from <= j < |keys| ==> keys[j] !in tags
  {
    if from >= |keys| then None
    else if keys[from] in tags then Some(from)
    else FirstKeyIndex(keys, tags, from + 1)
  }

  /** Whether a key is found depends on which tags occur, not on their order or repetition. */
  lemma {:induction false} FirstKeyIndexByMembership(keys: seq<string>, a: seq<string>, b: seq<string>, from: nat)
    requires forall t :: t in a <==> t in b
    decreases |keys| - from
    ensures FirstKeyIndex(keys, a, from) == FirstKeyIndex(keys, b, from)
  {
    if from < |keys| && keys[from] !in a {
      FirstKeyIndexByMembership(keys, a, b, from + 1);
    }
  }

  /** `byTag`'s question sets, in the order of `EjeKeys`. */
  const KeyedSets: seq<QuestionSet> := [
    // Architecture
    QuestionSet(
      "¿Cómo dialoga la"
      + " arquitectura de ",
      " con las tradiciones"
      + " prehispánicas?",
      "¿Qué materiales locales"
      + " se usan y por qué"
      + " importa esa elección?",
      "¿Existe un movimiento de"
      + " arquitectura"
      + " comunitaria en México"
      + " hoy?"),
    // Regional history
    QuestionSet(
      "¿Cuál es el contexto"
      + " histórico que da forma"
      + " a ",
      "?",
      "¿Cómo influye la región"
      + " en la identidad"
      + " cultural de sus"
      + " comunidades?",
      "¿Qué tensiones entre"
      + " tradición y modernidad"
      + " aparecen en este tema?"),
    // Cultural heritage
    QuestionSet(
      "¿Qué amenazas enfrenta"
      + " el patrimonio descrito"
      + " en ",
      "?",
      "¿Cómo se transmite este"
      + " conocimiento de"
      + " generación en"
      + " generación?",
      "¿Qué papel tienen las"
      + " comunidades locales en"
      + " su preservación?"),
    // Art
    QuestionSet(
      "¿Qué corriente artística"
      + " contextualiza ",
      "?",
      "¿Cómo negocia este arte"
      + " entre lo local y lo"
      + " global?",
      "¿Qué artistas"
      + " contemporáneos"
      + " continúan esta"
      + " conversación hoy?"),
    // Music
    QuestionSet(
      "¿Cuáles son los orígenes"
      + " del género musical en ",
      "?",
      "¿Cómo refleja esta"
      + " música la migración y"
      + " el mestizaje?",
      "¿Existe riesgo de que"
      + " este género"
      + " desaparezca? ¿Por qué?"),
    // Literature
    QuestionSet(
      "¿Qué autores han"
      + " explorado los temas de ",
      "?",
      "¿Cómo se relaciona esta"
      + " literatura con la"
      + " identidad nacional?",
      "¿Hay voces emergentes"
      + " que reinterpreten esta"
      + " tradición?")
  ]

  /** The generic fallback set. */
  const FallbackSet: QuestionSet :=
  QuestionSet(
      "¿Cuál es el contexto"
      + " histórico de ",
      "?",
      "¿Cómo se relaciona este"
      + " tema con la cultura"
      + " mexicana contemporánea?",
      "¿Qué comunidades o"
      + " actores son clave en"
      + " esta conversación?")

  /** `getEjes(article)`. */
  function GetEjes(article: Article): (r: seq<string>)
    ensures |r| == 3
    ensures Contains(r[0], Guillemets(article.title))
    ensures FirstKeyIndex(EjeKeys, article.tags, 0).None? ==> r == Render(FallbackSet, article.title)
    ensures FirstKeyIndex(EjeKeys, article.tags, 0).Some? ==>
              r == Render(KeyedSets[FirstKeyIndex(EjeKeys, article.tags, 0).value], article.title)
  {
    match FirstKeyIndex(EjeKeys, article.tags, 0)
    case None => Render(FallbackSet, article.title)
    case Some(k) => Render(KeyedSets[k], article.title)
  }

  /** With no key among the tags, the three generic questions are returned. */
  lemma NoKeyGivesFallback(article: Article)
    requires forall k :: 0 <= k < |EjeKeys| ==> EjeKeys[k] !in article.tags
    ensures GetEjes(article) == Render(FallbackSet, article.title)
  {
  }

  /** The set belongs to the earliest key present among the tags, wherever it stands among them. */
  lemma EarliestKeyWins(article: Article, k: nat)
    requires k < |EjeKeys| && EjeKeys[k] in article.tags
    requires forall j :: 0 <= j < k ==> EjeKeys[j] !in article.tags
    ensures GetEjes(article) == Render(KeyedSets[k], article.title)
  {
  }

  /** The questions depend on which tags occur, never on their order, so `tags[0]` plays no part. */
  lemma EjesIgnoreTagOrder(a: Article, b: Article)
    requires a.title == b.title
    requires forall t :: t in a.tags <==> t in b.tags
    ensures GetEjes(a) == GetEjes(b)
  {
    FirstKeyIndexByMembership(EjeKeys, a.tags, b.tags, 0);
  }

  // ---------------------------------------------------------------------------
  // handleEjeClick
  // ---------------------------------------------------------------------------

  /** What the handler captured before its pause: the question and `messages.length` at click time. */
  datatype PendingEje = PendingEje(question: string, messageCount: nat)

  /** The request the handler sends after its pause. */
  function EjeRequest(article: Article, p: PendingEje, profile: Option<UserProfile>): (r: ChatResponseInput)
    ensures r.userMessage == p.question && r.messageCount == p.messageCount
    ensures r.articleContext == Some(article.title)
    ensures r.profileType == ProfileTypeOf(profile)
  {
    ChatResponseInput(p.question, Some(article.title), ProfileTypeOf(profile), p.messageCount)
  }

  /** An answer that lands in slot 8 discusses the article and quotes its (non-empty) title. */
  lemma EjeAnswerInSlot8QuotesTitle(article: Article, p: PendingEje, profile: Option<UserProfile>)
    requires article.title != ""
    requires (|p.question| + p.messageCount) % 9 == 8
    ensures Contains(GetChatResponse(EjeRequest(article, p, profile)), Guillemets(article.title))
  {
    var input := EjeRequest(article, p, profile);
    SourceTablesWellShaped();
    ContextSlotQuotesTitle(SourceTables, input);
  }

  /**
   * The panel under one article. The click handler pauses between sending the question and
   * receiving the answer; it is modelled as the two steps on either side of that pause.
   */
  class EjesPanel {
    const article: Article
    var loadingIdx: Option<nat>
    /** The suspended handler's captured values, while one is pending. */
    var pending: Option<PendingEje>

    /** A question is loading exactly while a handler is suspended. */
    ghost predicate Valid()
      reads this
    {
      loadingIdx.Some? <==> pending.Some?
    }

    constructor (article: Article)
      ensures this.article == article && loadingIdx == None && pending == None
      ensures Valid()
    {
      this.article := article;
      loadingIdx := None;
      pending := None;
    }

    /**
     * `handleEjeClick(question, idx)` up to its pause. A click while a question is loading does
     * nothing; otherwise the article becomes the context, the sidebar opens, the question is
     * appended and `messages.length` from before that append is captured for the request.
     */
    method BeginEjeClick(store: Store, question: string, idx: nat, id: string, stamp: int)
      requires Valid() && store.Valid()
      modifies this`loadingIdx, this`pending, store
      ensures Valid() && store.Valid()
      ensures old(loadingIdx).Some? ==>
                && loadingIdx == old(loadingIdx) && pending == old(pending)
                && store.messages == old(store.messages) && store.chatMode == old(store.chatMode)
                && store.articleContext == old(store.articleContext)
      ensures old(loadingIdx).None? ==>
                && store.articleContext == Some(article.title) && store.chatMode == Sidebar
                && store.messages == old(store.messages) + [ChatMessage(id, User, question, stamp)]
                && loadingIdx == Some(idx)
                && pending == Some(PendingEje(question, |old(store.messages)|))
    {
      if loadingIdx.Some? {
        return;
      }
      var count := |store.messages|;
      store.SetArticleContext(Some(article.title));
      store.SetChatMode(Sidebar);
      store.AddMessage(User, question, id, stamp);
      loadingIdx := Some(idx);
      pending := Some(PendingEje(question, count));
    }

    /** `handleEjeClick` after its pause: the answer to the captured request is appended and loading ends. */
    method FinishEjeClick(store: Store, storage: LocalStorage, id: string, stamp: int)
      requires Valid() && store.Valid() && pending.Some?
      modifies this`loadingIdx, this`pending, store`messages, store`persisted
      ensures Valid() && store.Valid()
      ensures store.messages == old(store.messages) +
                [ChatMessage(id, Assistant, GetChatResponse(EjeRequest(article, old(pending).value, storage.user)), stamp)]
      ensures loadingIdx == None && pending == None
    {
      var profile := Profile.GetProfile(storage);
      var response := GetChatResponse(EjeRequest(article, pending.value, profile));
      store.AddMessage(Assistant, response, id, stamp);
      loadingIdx := None;
      pending := None;
    }
  }
}
