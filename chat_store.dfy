/**
 * The chat message store: the conversation log, the chat panel's mode and the article under
 * discussion, with the log mirrored to the "cultx:chat" key after every change.
 */
module ChatStore {
  import opened Wrappers

  datatype Role = User | Assistant

  datatype ChatMode = Minimal | Drawer | Sidebar | Fullscreen

  datatype ChatMessage = ChatMessage(id: string, role: Role, content: string, timestamp: int)

  /**
   * What the "cultx:chat" key holds, as far as loading can tell: nothing (or the empty
   * string), text that is not JSON, JSON that is not an array, or an array of messages.
   */
  datatype PersistedChat = NothingStored | Unparseable | NotAnArray | MessageArray(msgs: seq<ChatMessage>)

  /** `loadPersistedMessages()`: the stored array, or [] in every other case. */
  function LoadPersistedMessages(stored: PersistedChat): (r: seq<ChatMessage>)
    ensures stored.MessageArray? ==> r == stored.msgs
    ensures !stored.MessageArray? ==> r == []
  {
    match stored
    case MessageArray(msgs) => msgs
    case _ => []
  }

  /** The provider's state and the persisted key it writes. */
  class Store {
    var messages: seq<ChatMessage>
    var chatMode: ChatMode
    /** The title of the article being discussed, if any. */
    var articleContext: Option<string>
    /** The "cultx:chat" key. */
    var persisted: PersistedChat

    /** The persistence effect has caught up: the key holds the current log. */
    ghost predicate Valid()
      reads this
    {
      persisted == MessageArray(messages)
    }

    /** `ChatProvider` mounting: the log is loaded from the key, then written back by the effect. */
    constructor (stored: PersistedChat)
      ensures messages == LoadPersistedMessages(stored)
      ensures chatMode == Minimal && articleContext == None
      ensures Valid()
    {
      messages := LoadPersistedMessages(stored);
      chatMode := Minimal;
      articleContext := None;
      persisted := MessageArray(LoadPersistedMessages(stored));
    }

    /** `addMessage({ role, content })`: `id` and `stamp` stand for `crypto.randomUUID()` and `Date.now()`. */
    method AddMessage(role: Role, content: string, id: string, stamp: int)
      requires Valid()
      modifies this`messages, this`persisted
      ensures messages == old(messages) + [ChatMessage(id, role, content, stamp)]
      ensures Valid()
    {
      messages := messages + [ChatMessage(id, role, content, stamp)];
      Persist();
    }

    /** `setChatMode(mode)`. */
    method SetChatMode(mode: ChatMode)
      modifies this`chatMode
      ensures chatMode == mode
    {
      chatMode := mode;
    }

    /** `setArticleContext(title)`. */
    method SetArticleContext(title: Option<string>)
      modifies this`articleContext
      ensures articleContext == title
    {
      articleContext := title;
    }

    /** `clearMessages()`: the log is emptied and the key removed; the effect then stores the empty log. */
    method ClearMessages()
      modifies this`messages, this`persisted
      ensures messages == []
      ensures Valid()
    {
      messages := [];
      persisted := NothingStored;
      Persist();
    }

    /** The persistence effect that runs after `messages` changes. */
    method Persist()
      modifies this`persisted
      ensures persisted == MessageArray(messages)
    {
      persisted := MessageArray(messages);
    }
  }

  /** A store whose key has caught up reloads to the same conversation. */
  lemma ReloadRestoresMessages(msgs: seq<ChatMessage>, stored: PersistedChat)
    requires stored == MessageArray(msgs)
    ensures LoadPersistedMessages(stored) == msgs
  {
  }

  /** A missing, corrupt or non-array key all load as an empty conversation. */
  lemma LoadWithoutArrayIsEmpty(stored: PersistedChat)
    requires stored.NothingStored? || stored.Unparseable? || stored.NotAnArray?
    ensures LoadPersistedMessages(stored) == []
  {
  }
}
