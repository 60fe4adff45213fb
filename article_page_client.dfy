/** The article page's own state: the fragment being explored, and "send to chat" for a selected fragment. */
module ArticlePageClient {
  import opened Wrappers
  import opened Text
  import opened Articles
  import opened ChatStore
  import opened ChatResponder
  import opened Storage
  import opened Types

  /** The longest fragment quoted in full. */
  const MaxQuoteLength: nat := 200

  /** A fragment longer than 200 code units is cut to its first 200, followed by "…". */
  function Truncate(selectedText: string): (r: string)
    ensures |selectedText| <= MaxQuoteLength ==> r == selectedText
    ensures |selectedText| > MaxQuoteLength ==> r == selectedText[..MaxQuoteLength] + "…"
    ensures |r| <= MaxQuoteLength + 1
    ensures selectedText[..if |selectedText| < MaxQuoteLength then |selectedText| else MaxQuoteLength] <= r
  {
    if |selectedText| > MaxQuoteLength then selectedText[..MaxQuoteLength] + "…" else selectedText
  }

  /** The follow-up line under the quoted fragment. */
  const FollowUp: string := "\n\n¿Puedes profundizar en este fragmento?"

  /** The user's question: the truncated fragment in guillemets, then the follow-up line. */
  function Question(selectedText: string): (r: string)
    ensures Guillemets(Truncate(selectedText)) <= r
    ensures r[|Guillemets(Truncate(selectedText))|..] == FollowUp
    ensures |r| <= MaxQuoteLength + 3 + |FollowUp|
  {
    Guillemets(Truncate(selectedText)) + FollowUp
  }

  /** The request after the pause: the whole fragment, untruncated, with the article's title as context. */
  function SendToChatRequest(article: Article, selectedText: string, profileType: Option<string>, messageCount: nat): (r: ChatResponseInput)
    ensures r.userMessage == selectedText && r.articleContext == Some(article.title)
    ensures r.profileType == profileType && r.messageCount == messageCount
  {
    ChatResponseInput(selectedText, Some(article.title), profileType, messageCount)
  }

  class ArticlePage {
    const article: Article
    /** The fragment shown in the explore panel, if any. */
    var exploreText: Option<string>
    /** The profile type read once when the page mounts. */
    var profileType: Option<string>

    constructor (article: Article, storage: LocalStorage)
      ensures this.article == article && exploreText == None
      ensures profileType == ProfileTypeOf(storage.user)
    {
      this.article := article;
      exploreText := None;
      profileType := ProfileTypeOf(storage.user);
    }

    /** `onExplore(text)`: the explore panel opens on the fragment. */
    method Explore(text: string)
      modifies this`exploreText
      ensures exploreText == Some(text)
    {
      exploreText := Some(text);
    }

    /** The explore panel's `onClose`. */
    method CloseExplore()
      modifies this`exploreText
      ensures exploreText == None
    {
      exploreText := None;
    }

    /**
     * `handleSendToChat(selectedText)` up to its pause: the article becomes the context and the
     * sidebar opens before the question is appended. The request it returns is what the handler
     * keeps across the pause: the untruncated fragment and the message count from before the
     * question. Nothing stops a second send from starting during the pause, so each send keeps
     * its own request.
     */
    method BeginSendToChat(store: Store, selectedText: string, questionId: string, questionStamp: int)
      returns (request: ChatResponseInput)
      requires store.Valid()
      modifies store
      ensures store.Valid()
      ensures store.articleContext == Some(article.title) && store.chatMode == Sidebar
      ensures store.messages == old(store.messages) + [ChatMessage(questionId, User, Question(selectedText), questionStamp)]
      ensures request == SendToChatRequest(article, selectedText, profileType, |old(store.messages)|)
    {
      request := SendToChatRequest(article, selectedText, profileType, |store.messages|);
      store.SetArticleContext(Some(article.title));
      store.SetChatMode(Sidebar);
      store.AddMessage(User, Question(selectedText), questionId, questionStamp);
    }

    /** The rest of `handleSendToChat` after the pause: the answer to the kept request is appended. */
    method FinishSendToChat(store: Store, request: ChatResponseInput, answerId: string, answerStamp: int)
      requires store.Valid()
      modifies store
      ensures store.Valid()
      ensures store.articleContext == old(store.articleContext) && store.chatMode == old(store.chatMode)
      ensures store.messages == old(store.messages) + [ChatMessage(answerId, Assistant, GetChatResponse(request), answerStamp)]
    {
      var response := GetChatResponse(request);
      store.AddMessage(Assistant, response, answerId, answerStamp);
    }
  }
}
