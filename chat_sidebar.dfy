/**
 * The chat side panel: the renderer that turns `[label](href)` in an answer into links, the
 * send handler that prefixes a quoted fragment, and the sidebar/fullscreen/minimal toggles.
 */
module ChatSidebar {
  import opened Wrappers
  import opened Text
  import opened ChatStore
  import opened ChatResponder
  import opened Storage
  import opened Types

  // ---------------------------------------------------------------------------
  // MessageContent
  // ---------------------------------------------------------------------------

  /** A rendered piece of an answer: plain text, or a link whose target may be missing. */
  datatype Node = TextNode(text: string) | LinkNode(caption: string, href: Option<string>)

  /**
   * What `content.split(/(\[([^\]]+)\]\(([^)]+)\))/g)` describes: the text before the first
   * `[label](href)`, each match followed by the text after it, and the text after the last one.
   */
  datatype SplitResult = Last(text: string) | Then(text: string, caption: string, href: string, rest: SplitResult)

  /** The array `split` returns: per match, the whole match and its two groups after the text before it. */
  function Parts(sr: SplitResult): (parts: seq<string>)
    ensures |parts| >= 1 && parts[0] == sr.text
  {
    match sr
    case Last(t) => [t]
    case Then(t, l, h, rest) => [t, "[" + l + "](" + h + ")", l, h] + Parts(rest)
  }

  /** What the renderer is meant to show: every non-empty text and one link per match, in order. */
  function Intended(sr: SplitResult): seq<Node> {
    var text := if sr.text != "" then [TextNode(sr.text)] else [];
    match sr
    case Last(_) => text
    case Then(_, l, h, rest) => text + [LinkNode(l, Some(h))] + Intended(rest)
  }

  /** `s.startsWith("[")`. */
  predicate StartsWithBracket(s: string) {
    |s| > 0 && s[0] == '['
  }

  /** No text between matches starts with "[" (the text after the last match may). */
  predicate NoBracketText(sr: SplitResult) {
    match sr
    case Last(_) => true
    case Then(t, _, _, rest) => !StartsWithBracket(t) && NoBracketText(rest)
  }

  /**
   * The renderer's loop as written: a part starting with "[" that has a successor is taken for a
   * whole match, and it and the two parts after it become one link; any other non-empty part is text.
   */
  function Tokenize(parts: seq<string>): (nodes: seq<Node>)
    ensures |nodes| <= |parts|
    ensures forall i :: 0 <= i < |nodes| && nodes[i].TextNode? ==> nodes[i].text != ""
    decreases |parts|
  {
    if parts == [] then []
    else if StartsWithBracket(parts[0]) && |parts| > 1 then
      var href := if |parts| > 2 then Some(parts[2]) else None;
      [LinkNode(parts[1], href)] + Tokenize(parts[if |parts| > 2 then 3 else 2..])
    else
      (if parts[0] != "" then [TextNode(parts[0])] else []) + Tokenize(parts[1..])
  }

  /** `MessageContent({ content })`, over the parts of the split. */
  method MessageContent(parts: seq<string>) returns (nodes: seq<Node>)
    ensures nodes == Tokenize(parts)
  {
    nodes := [];
    var i := 0;
    while i < |parts|
      invariant 0 <= i <= |parts|
      invariant nodes + TokenizeFrom(parts, i) == TokenizeFrom(parts, 0)
      decreases |parts| - i
    {
      var part := parts[i];
      if StartsWithBracket(part) && i + 1 < |parts| {
        i := i + 1;
        var text := parts[i];
        i := i + 1;
        var href := if i < |parts| then Some(parts[i]) else None;
        i := if i < |parts| then i + 1 else i;
        AppendAssoc(nodes, [LinkNode(text, href)], TokenizeFrom(parts, i));
        nodes := nodes + [LinkNode(text, href)];
      } else {
        var shown := if part != "" then [TextNode(part)] else [];
        AppendAssoc(nodes, shown, TokenizeFrom(parts, i + 1));
        nodes := nodes + shown;
        i := i + 1;
      }
    }
    TokenizeFromSuffix(parts, 0);
    assert parts[0..] == parts;
  }

  lemma AppendAssoc(a: seq<Node>, b: seq<Node>, c: seq<Node>)
    ensures (a + b) + c == a + (b + c)
  {
  }

  /** The loop's view of the tokenizer: the nodes the parts from index `i` on give. */
  function TokenizeFrom(parts: seq<string>, i: nat): (nodes: seq<Node>)
    requires i <= |parts|
    decreases |parts| - i
  {
    if i == |parts| then []
    else if StartsWithBracket(parts[i]) && i + 1 < |parts| then
      var href := if i + 2 < |parts| then Some(parts[i + 2]) else None;
      [LinkNode(parts[i + 1], href)] + TokenizeFrom(parts, if i + 2 < |parts| then i + 3 else i + 2)
    else
      (if parts[i] != "" then [TextNode(parts[i])] else []) + TokenizeFrom(parts, i + 1)
  }

  /** Walking the parts by index gives what the tokenizer gives on the parts from that index on. */
  lemma {:induction false} TokenizeFromSuffix(parts: seq<string>, i: nat)
    requires i <= |parts|
    ensures TokenizeFrom(parts, i) == Tokenize(parts[i..])
    decreases |parts| - i
  {
    if i == |parts| {
    } else if StartsWithBracket(parts[i]) && i + 1 < |parts| {
      TokenizeLinkStep(parts, i);
      TokenizeFromSuffix(parts, if i + 2 < |parts| then i + 3 else i + 2);
    } else {
      TokenizeTextStep(parts, i);
      TokenizeFromSuffix(parts, i + 1);
    }
  }

  /** One step of the loop on a part taken for a match. */
  lemma TokenizeLinkStep(parts: seq<string>, i: nat)
    requires i + 1 < |parts| && StartsWithBracket(parts[i])
    ensures var next := if i + 2 < |parts| then i + 3 else i + 2;
      var href := if i + 2 < |parts| then Some(parts[i + 2]) else None;
      Tokenize(parts[i..]) == [LinkNode(parts[i + 1], href)] + Tokenize(parts[next..])
  {
    var rest := parts[i..];
    assert rest[0] == parts[i] && rest[1] == parts[i + 1];
    if i + 2 < |parts| {
      assert rest[2] == parts[i + 2];
      assert rest[3..] == parts[i + 3..];
    } else {
      assert rest[2..] == parts[i + 2..];
    }
  }

  /** One step of the loop on a part taken for text. */
  lemma TokenizeTextStep(parts: seq<string>, i: nat)
    requires i < |parts| && !(StartsWithBracket(parts[i]) && i + 1 < |parts|)
    ensures Tokenize(parts[i..]) == (if parts[i] != "" then [TextNode(parts[i])] else []) + Tokenize(parts[i + 1..])
  {
    var rest := parts[i..];
    assert rest[0] == parts[i];
    assert rest[1..] == parts[i + 1..];
  }

  /** When no text between matches starts with "[", the loop shows exactly one link per match. */
  lemma {:induction false} TokenizeWithoutBracketText(sr: SplitResult)
    requires NoBracketText(sr)
    ensures Tokenize(Parts(sr)) == Intended(sr)
  {
    match sr
    case Last(t) =>
    case Then(t, l, h, rest) =>
      var parts := Parts(sr);
      assert parts[1..] == ["[" + l + "](" + h + ")", l, h] + Parts(rest);
      assert parts[4..] == Parts(rest);
      assert StartsWithBracket(parts[1]);
      TokenizeWithoutBracketText(rest);
  }

  /** A text such as "[y] and " before a link is misread: the match becomes the label and its label the target. */
  lemma BracketTextMisread()
    ensures var sr := Then("[y] and ", "a", "/b", Last(""));
      && Tokenize(Parts(sr)) == [LinkNode("[a](/b)", Some("a")), TextNode("/b")]
      && Intended(sr) == [TextNode("[y] and "), LinkNode("a", Some("/b"))]
  {
    var sr := Then("[y] and ", "a", "/b", Last(""));
    var parts := Parts(sr);
    assert "[" + "a" + "](" + "/b" + ")" == "[a](/b)";
    assert parts == ["[y] and ", "[a](/b)", "a", "/b", ""];
    assert StartsWithBracket(parts[0]);
    assert parts[3..] == ["/b", ""];
    assert !StartsWithBracket("/b");
    assert Tokenize(["/b", ""]) == [TextNode("/b")] + Tokenize([""]);
  }

  /**
   * The renderer as intended: the split array alternates text and match by position (text at
   * 0, 4, 8, ...; the match's groups two and three places after the text), so the test
   * looks at the position rather than at the first character.
   */
  function TokenizeAligned(parts: seq<string>): (nodes: seq<Node>)
    decreases |parts|
  {
    if parts == [] then []
    else
      var text := if parts[0] != "" then [TextNode(parts[0])] else [];
      if |parts| >= 4 then text + [LinkNode(parts[2], Some(parts[3]))] + TokenizeAligned(parts[4..])
      else text
  }

  /** The aligned renderer shows every text and every link, whatever the texts start with. */
  lemma {:induction false} TokenizeAlignedCorrect(sr: SplitResult)
    ensures TokenizeAligned(Parts(sr)) == Intended(sr)
  {
    match sr
    case Last(t) =>
    case Then(t, l, h, rest) =>
      var parts := Parts(sr);
      assert parts[2] == l && parts[3] == h;
      assert parts[4..] == Parts(rest);
      TokenizeAlignedCorrect(rest);
  }

  // ---------------------------------------------------------------------------
  // The panel
  // ---------------------------------------------------------------------------

  /** The user message for a send: the quote as a "> " block above the text, trimmed; or the text alone. */
  function ComposeMessage(quotedText: Option<string>, trimmed: string): (r: string)
    ensures !Truthy(quotedText) ==> r == trimmed
    ensures Truthy(quotedText) ==> r == Trim("> " + quotedText.value + "\n\n" + trimmed)
  {
    if Truthy(quotedText) then Trim("> " + quotedText.value + "\n\n" + trimmed) else trimmed
  }

  /** With a quote and some text, trimming the composition removes nothing: the block and the text are kept whole. */
  lemma ComposedQuoteKeepsText(quote: string, input: string)
    requires quote != "" && Trim(input) != ""
    ensures ComposeMessage(Some(quote), Trim(input)) == "> " + quote + "\n\n" + Trim(input)
  {
    var s := "> " + quote + "\n\n" + Trim(input);
    assert s[0] == '>';
    assert s[|s| - 1] == Trim(input)[|Trim(input)| - 1];
    TrimKeepsClean(s);
  }

  /** The input placeholder: it names a truthy context in guillemets. */
  function Placeholder(articleContext: Option<string>): (r: string)
    ensures Truthy(articleContext) ==> Contains(r, Guillemets(articleContext.value))
  {
    if Truthy(articleContext) then
      ContainsInMiddle("Ask about ", Guillemets(articleContext.value), "…");
      "Ask about " + Guillemets(articleContext.value) + "…"
    else
      "Type your question…"
  }

  /** The panel is rendered only in sidebar or fullscreen mode. */
  predicate Renders(mode: ChatMode) {
    mode == Sidebar || mode == Fullscreen
  }

  /** The mode after the expand/shrink button: sidebar and fullscreen swap; anything else goes fullscreen. */
  function ToggledMode(mode: ChatMode): (r: ChatMode)
    ensures mode == Fullscreen ==> r == Sidebar
    ensures mode != Fullscreen ==> r == Fullscreen
    ensures Renders(r)
  {
    if mode == Fullscreen then Sidebar else Fullscreen
  }

  /** Pressing the button twice returns a rendered panel to the mode it had. */
  lemma ToggleTwice(mode: ChatMode)
    requires Renders(mode)
    ensures ToggledMode(ToggledMode(mode)) == mode
  {
  }

  /** The panel's own state, together with the quoted fragment its provider holds for it. */
  class Sidebar {
    var inputValue: string
    var isTyping: bool
    /** The quoted fragment waiting to be sent; null once sent or dismissed. */
    var quotedText: Option<string>
    /** The profile type read once when the panel mounts. */
    var profileType: Option<string>
    var showHistory: bool
    /** The responder's request a send captured before its pause: the trimmed text without the quote and the closure's store values. */
    var pending: Option<ChatResponseInput>

    /** The panel is typing exactly while a send is suspended. */
    ghost predicate Valid()
      reads this
    {
      isTyping <==> pending.Some?
    }

    constructor (storage: LocalStorage, quotedText: Option<string>)
      ensures inputValue == "" && !isTyping && !showHistory && pending == None
      ensures this.quotedText == quotedText && profileType == ProfileTypeOf(storage.user)
      ensures Valid()
    {
      inputValue := "";
      isTyping := false;
      this.quotedText := quotedText;
      profileType := ProfileTypeOf(storage.user);
      showHistory := false;
      pending := None;
    }

    /**
     * `handleSend()` up to its pause. Nothing happens while typing, or when there is neither
     * text nor a quote. Otherwise the composed message is appended, input and quote are cleared,
     * and the trimmed text and the message count from before this send are captured.
     */
    method BeginSend(store: Store, id: string, stamp: int)
      requires Valid() && store.Valid()
      modifies this`inputValue, this`isTyping, this`quotedText, this`pending, store`messages, store`persisted
      ensures Valid() && store.Valid()
      ensures (Trim(old(inputValue)) == "" && !Truthy(old(quotedText))) || old(isTyping) ==>
                && inputValue == old(inputValue) && quotedText == old(quotedText)
                && isTyping == old(isTyping) && pending == old(pending)
                && store.messages == old(store.messages)
      ensures !((Trim(old(inputValue)) == "" && !Truthy(old(quotedText))) || old(isTyping)) ==>
                && store.messages == old(store.messages) +
                     [ChatMessage(id, User, ComposeMessage(old(quotedText), Trim(old(inputValue))), stamp)]
                && inputValue == "" && quotedText == None && isTyping
                && pending == Some(ChatResponseInput(Trim(old(inputValue)), store.articleContext, profileType,
                                                     |old(store.messages)|))
    {
      var trimmed := Trim(inputValue);
      if (trimmed == "" && !Truthy(quotedText)) || isTyping {
        return;
      }
      var fullContent := ComposeMessage(quotedText, trimmed);
      var count := |store.messages|;
      store.AddMessage(User, fullContent, id, stamp);
      inputValue := "";
      quotedText := None;
      isTyping := true;
      pending := Some(ChatResponseInput(trimmed, store.articleContext, profileType, count));
    }

    /** `handleSend()` after its pause: the answer to the captured request is appended and typing ends. */
    method FinishSend(store: Store, id: string, stamp: int)
      requires Valid() && store.Valid() && pending.Some?
      modifies this`isTyping, this`pending, store`messages, store`persisted
      ensures Valid() && store.Valid()
      ensures store.messages == old(store.messages) +
                [ChatMessage(id, Assistant, GetChatResponse(old(pending.value)), stamp)]
      ensures !isTyping && pending == None
    {
      var response := GetChatResponse(pending.value);
      store.AddMessage(Assistant, response, id, stamp);
      isTyping := false;
      pending := None;
    }

    /** `handleToggleFullscreen()`. */
    method ToggleFullscreen(store: Store)
      modifies store`chatMode
      ensures store.chatMode == ToggledMode(old(store.chatMode))
    {
      store.SetChatMode(if store.chatMode == Fullscreen then ChatMode.Sidebar else Fullscreen);
    }

    /** `handleCollapse()`: back to the minimal bar, where the panel is not rendered. */
    method Collapse(store: Store)
      modifies store`chatMode
      ensures store.chatMode == Minimal && !Renders(store.chatMode)
    {
      store.SetChatMode(Minimal);
    }

    /** The new-conversation button: the log is emptied and the history list closed. */
    method NewConversation(store: Store)
      modifies store`messages, store`persisted, this`showHistory
      ensures store.messages == [] && store.Valid() && !showHistory
    {
      store.ClearMessages();
      showHistory := false;
    }

    /** The quote chip's close button. */
    method DismissQuote()
      modifies this`quotedText
      ensures quotedText == None
    {
      quotedText := None;
    }
  }
}
