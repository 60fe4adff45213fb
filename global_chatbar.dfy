/**
 * The chat bar at the foot of every page: suggested prompts, the guest-interaction counter and
 * the send handler that answers, or nudges a guest over the limit to sign up.
 */
module GlobalChatbar {
  import opened Wrappers
  import opened Text
  import opened Types
  import opened ChatStore
  import opened ChatResponder
  import opened Storage
  import opened Auth

  // ---------------------------------------------------------------------------
  // The guest counter
  // ---------------------------------------------------------------------------

  /** `getGuestInteractions()`: the stored count, with a missing key read as 0. */
  function GetGuestInteractions(storage: LocalStorage): (n: int)
    reads storage
    ensures storage.guestInteractions.None? ==> n == 0
    ensures storage.guestInteractions.Some? ==> n == storage.guestInteractions.value
  {
    storage.guestInteractions.GetOr(0)
  }

  /** `incrementGuestInteractions()`: the count goes up by exactly one and is stored. */
  method IncrementGuestInteractions(storage: LocalStorage) returns (next: int)
    modifies storage`guestInteractions
    ensures next == old(GetGuestInteractions(storage)) + 1
    ensures storage.guestInteractions == Some(next)
  {
    next := GetGuestInteractions(storage) + 1;
    storage.guestInteractions := Some(next);
  }

  // ---------------------------------------------------------------------------
  // Suggested prompts
  // ---------------------------------------------------------------------------

  /** The prompts offered when no article is under discussion. */
  const GeneralPrompts: seq<string> := [
    "¿Cuáles son las tradiciones"
    + " más importantes de México?",
    "Cuéntame sobre el"
    + " muralismo mexicano",
    "¿Qué es el patrimonio"
    + " cultural inmaterial?"
  ]

  /** `getSuggestedPrompts(articleContext)`: three prompts, the first quoting a truthy context. */
  function GetSuggestedPrompts(articleContext: Option<string>): (r: seq<string>)
    ensures |r| == 3
    ensures Truthy(articleContext) ==> Contains(r[0], Guillemets(articleContext.value))
    ensures !Truthy(articleContext) ==> r == GeneralPrompts
  {
    if Truthy(articleContext) then
      ContainsInMiddle("¿Cuál es el contexto histórico de ", Guillemets(articleContext.value), "?");
      [ "¿Cuál es el contexto histórico de " + Guillemets(articleContext.value) + "?",
        "Explícame los personajes"
        + " clave de este tema",
        "¿Cómo se relaciona esto"
        + " con la cultura mexicana"
        + " actual?" ]
    else
      GeneralPrompts
  }

  /** The textarea's placeholder: it names a truthy context in guillemets. */
  function Placeholder(articleContext: Option<string>): (r: string)
    ensures Truthy(articleContext) ==> Contains(r, Guillemets(articleContext.value))
  {
    if Truthy(articleContext) then
      ContainsInMiddle("Pregunta sobre ", Guillemets(articleContext.value), "…");
      "Pregunta sobre " + Guillemets(articleContext.value) + "…"
    else
      "Pregunta sobre cultura mexicana…"
  }

  // ---------------------------------------------------------------------------
  // Sending
  // ---------------------------------------------------------------------------

  /** The sign-up nudge a guest receives instead of an answer once over the limit. */
  const GuestLimitNudge: string :=
    "Has alcanzado el límite"
    + " de 3 conversaciones"
    + " gratuitas. Crea una"
    + " cuenta para seguir"
    + " explorando la cultura"
    + " mexicana sin límites —"
    + " es gratis.\n\n👉 [Crear"
    + " cuenta](/signup)"

  /** `!getProfile()?.isLoggedIn`: no profile, or one that is signed out. */
  predicate IsGuest(user: Option<UserProfile>)
    ensures IsGuest(user) <==> CurrentUser(user).None?
  {
    !(user.Some? && user.value.isLoggedIn)
  }

  /** What a send captured before its pause: the responder's request (the trimmed text and the closure's store values) and the guest test. */
  datatype PendingSend = PendingSend(request: ChatResponseInput, isGuest: bool)

  /** How a send is answered. */
  datatype Reply = Nudge | Answer(text: string)

  /**
   * The decision after the pause, given the counter as stored before it: a guest is nudged
   * exactly when the incremented count exceeds `GUEST_AI_LIMIT`, everybody else is answered.
   */
  function SendDecision(p: PendingSend, storedCount: int): (r: Reply)
    ensures r.Nudge? <==> p.isGuest && storedCount + 1 > GuestAiLimit
    ensures r.Answer? ==> r.text == GetChatResponse(p.request) && r.text != ""
  {
    if p.isGuest && storedCount + 1 > GuestAiLimit then Nudge
    else Answer(GetChatResponse(p.request))
  }

  /** The assistant message's text. */
  function ReplyText(r: Reply): string {
    match r
    case Nudge => GuestLimitNudge
    case Answer(text) => text
  }

  /** A signed-in user is always answered, whatever the counter says. */
  lemma SignedInAlwaysAnswered(p: PendingSend, storedCount: int)
    requires !p.isGuest
    ensures SendDecision(p, storedCount) == Answer(GetChatResponse(p.request))
  {
  }

  /** What the bar shows when it is shown. */
  datatype BarView = BarView(expanded: bool, sidebarOpen: bool, prompts: seq<string>, placeholder: string)

  /** The bar's own state, with the pending send while one is suspended. */
  class Chatbar {
    var inputValue: string
    var isFocused: bool
    var isTyping: bool
    /** The profile type read by the mount effect. */
    var profileType: Option<string>
    var pending: Option<PendingSend>

    /** The bar is typing exactly while a send is suspended. */
    ghost predicate Valid()
      reads this
    {
      isTyping <==> pending.Some?
    }

    /** Mounting, after the effect has read the profile type. */
    constructor (storage: LocalStorage)
      ensures inputValue == "" && !isFocused && !isTyping && pending == None
      ensures profileType == ProfileTypeOf(storage.user)
      ensures Valid()
    {
      inputValue := "";
      isFocused := false;
      isTyping := false;
      profileType := ProfileTypeOf(storage.user);
      pending := None;
    }

    /** The rendered bar: nothing in fullscreen mode; otherwise expanded iff focused or holding text. */
    function View(store: Store): (r: Option<BarView>)
      reads this, store
      ensures r.None? <==> store.chatMode == Fullscreen
      ensures r.Some? ==> (r.value.expanded <==> isFocused || |inputValue| > 0)
      ensures r.Some? ==> (r.value.sidebarOpen <==> store.chatMode == Sidebar)
      ensures r.Some? ==> |r.value.prompts| == 3
    {
      if store.chatMode == Fullscreen then None
      else Some(BarView(isFocused || |inputValue| > 0, store.chatMode == Sidebar,
                        GetSuggestedPrompts(store.articleContext), Placeholder(store.articleContext)))
    }

    /** `handlePromptClick(prompt)`: the prompt fills the input and the input takes focus. */
    method PromptClick(prompt: string)
      modifies this`inputValue, this`isFocused
      ensures inputValue == prompt && isFocused
    {
      inputValue := prompt;
      isFocused := true;
    }

    /**
     * `handleSend()` up to its pause. Trimmed-empty input, or a send already under way, does
     * nothing. Otherwise the trimmed text is appended as the user's message, the input is
     * cleared and blurred, and the values the answer will use are captured.
     */
    method BeginSend(store: Store, storage: LocalStorage, id: string, stamp: int)
      requires Valid() && store.Valid()
      modifies this`inputValue, this`isFocused, this`isTyping, this`pending, store`messages, store`persisted
      ensures Valid() && store.Valid()
      ensures Trim(old(inputValue)) == "" || old(isTyping) ==>
                && inputValue == old(inputValue) && isFocused == old(isFocused)
                && isTyping == old(isTyping) && pending == old(pending)
                && store.messages == old(store.messages)
      ensures Trim(old(inputValue)) != "" && !old(isTyping) ==>
                && store.messages == old(store.messages) + [ChatMessage(id, User, Trim(old(inputValue)), stamp)]
                && inputValue == "" && !isFocused && isTyping
                && pending == Some(PendingSend(
                     ChatResponseInput(Trim(old(inputValue)), store.articleContext, profileType, |old(store.messages)|),
                     IsGuest(storage.user)))
    {
      var trimmed := Trim(inputValue);
      if trimmed == "" || isTyping {
        return;
      }
      var isGuest := IsGuest(storage.user);
      var count := |store.messages|;
      store.AddMessage(User, trimmed, id, stamp);
      inputValue := "";
      isFocused := false;
      isTyping := true;
      pending := Some(PendingSend(ChatResponseInput(trimmed, store.articleContext, profileType, count), isGuest));
    }

    /**
     * `handleSend()` after its pause. A guest's counter goes up by one; the nudge or the answer
     * is appended, typing ends and the sidebar opens.
     */
    method FinishSend(store: Store, storage: LocalStorage, id: string, stamp: int)
      requires Valid() && store.Valid() && pending.Some?
      modifies this`isTyping, this`pending, store`messages, store`persisted, store`chatMode, storage`guestInteractions
      ensures Valid() && store.Valid()
      ensures old(pending.value.isGuest) ==>
                storage.guestInteractions == Some(old(GetGuestInteractions(storage)) + 1)
      ensures !old(pending.value.isGuest) ==> storage.guestInteractions == old(storage.guestInteractions)
      ensures store.messages == old(store.messages) +
                [ChatMessage(id, Assistant, ReplyText(SendDecision(old(pending.value), old(GetGuestInteractions(storage)))), stamp)]
      ensures !isTyping && pending == None && store.chatMode == Sidebar
    {
      var p := pending.value;
      var stored := GetGuestInteractions(storage);
      if p.isGuest {
        var count := IncrementGuestInteractions(storage);
        if count > GuestAiLimit {
          store.AddMessage(Assistant, GuestLimitNudge, id, stamp);
          isTyping := false;
          pending := None;
          store.SetChatMode(Sidebar);
          return;
        }
      }
      var response := GetChatResponse(p.request);
      store.AddMessage(Assistant, response, id, stamp);
      isTyping := false;
      pending := None;
      store.SetChatMode(Sidebar);
    }

    /** The context chip's close button. */
    method ClearContext(store: Store)
      modifies store`articleContext
      ensures store.articleContext == None
    {
      store.SetArticleContext(None);
    }
  }
}
