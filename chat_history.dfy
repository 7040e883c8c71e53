// The web client's per-chat message history: it loads the stored session,
// shows its ordinary messages, and appends or edits messages by saving the
// whole session back through the chat-session store.  The clock is the
// `now` parameter; a storage refusal is the `failure` parameter.

module ChatHistory {
  import opened Common
  import opened ChatStorage

  /** Partial<Message>: the fields an update sets. */
  datatype MessagePatch = MessagePatch(id: Option<string>, kind: Option<string>, content: Option<string>,
                                       timestamp: Option<Stamp>, status: Option<Option<string>>,
                                       messageCategory: Option<Option<string>>, videos: Option<Option<seq<string>>>,
                                       isProgressBar: Option<bool>, isQueryAnalyzing: Option<bool>)

  /** `{ ...msg, ...updates }`. */
  function Apply(m: Message, p: MessagePatch): (r: Message)
    ensures p.content.Some? ==> r.content == p.content.value
    ensures p.content.None? ==> r.content == m.content
    ensures p == MessagePatch(None, None, None, None, None, None, None, None, None) ==> r == m
  {
    Message(if p.id.Some? then p.id.value else m.id,
            if p.kind.Some? then p.kind.value else m.kind,
            if p.content.Some? then p.content.value else m.content,
            if p.timestamp.Some? then p.timestamp.value else m.timestamp,
            if p.status.Some? then p.status.value else m.status,
            if p.messageCategory.Some? then p.messageCategory.value else m.messageCategory,
            if p.videos.Some? then p.videos.value else m.videos,
            if p.isProgressBar.Some? then p.isProgressBar.value else m.isProgressBar,
            if p.isQueryAnalyzing.Some? then p.isQueryAnalyzing.value else m.isQueryAnalyzing)
  }

  /** The message with that id patched, every other message as it was. */
  function PatchById(messages: seq<Message>, messageId: string, p: MessagePatch): (r: seq<Message>)
    ensures |r| == |messages|
    ensures forall k :: 0 <= k < |messages| ==>
              r[k] == (if messages[k].id == messageId then Apply(messages[k], p) else messages[k])
  {
    seq(|messages|, k requires 0 <= k < |messages| =>
      if messages[k].id == messageId then Apply(messages[k], p) else messages[k])
  }

  /** A message shown in the list: neither a progress bar nor a query-analysis message. */
  predicate Shown(m: Message) { !m.isProgressBar && !m.isQueryAnalyzing }

  /** A text timestamp read back as a date. */
  function ReviveTimestamp(m: Message, parseDate: string -> int): Message
  {
    if m.timestamp.Text? then m.(timestamp := DateValue(parseDate(m.timestamp.text))) else m
  }

  /** `loadHistory`'s list: the shown messages in order, text timestamps read back as dates. */
  function Display(messages: seq<Message>, parseDate: string -> int): (r: seq<Message>)
    ensures |r| <= |messages|
    ensures forall k :: 0 <= k < |r| ==> r[k].timestamp.DateValue? && Shown(r[k])
    ensures forall m :: m in messages && Shown(m) ==> ReviveTimestamp(m, parseDate) in r
    ensures forall m :: m in r ==> exists k :: 0 <= k < |messages| && Shown(messages[k]) && m == ReviveTimestamp(messages[k], parseDate)
  {
    if |messages| == 0 then []
    else
      var rest := Display(messages[1..], parseDate);
      var head := if Shown(messages[0]) then [ReviveTimestamp(messages[0], parseDate)] else [];
      var r := head + rest;
      assert forall m :: m in rest ==> exists k :: 0 <= k < |messages| && Shown(messages[k]) && m == ReviveTimestamp(messages[k], parseDate) by {
        forall m | m in rest
          ensures exists k :: 0 <= k < |messages| && Shown(messages[k]) && m == ReviveTimestamp(messages[k], parseDate)
        {
          var j :| 0 <= j < |messages[1..]| && Shown(messages[1..][j]) && m == ReviveTimestamp(messages[1..][j], parseDate);
          assert messages[j + 1] == messages[1..][j];
        }
      }
      assert forall m :: m in messages ==> m == messages[0] || m in messages[1..];
      r
  }

  /** `lastMessage`: the content, cut to its first 50 characters followed by "..." when longer. */
  function Preview(content: string): (r: string)
    ensures |content| <= 50 ==> r == content
    ensures |content| > 50 ==> |r| == 53 && r[..50] == content[..50] && r[50..] == "..."
  {
    if |content| > 50 then content[..50] + "..." else content
  }

  /** `addMessage`'s default category: user messages are queries, the others responses. */
  function Categorized(m: Message): (r: Message)
    ensures m.messageCategory.Some? && m.messageCategory.value != "" ==> r == m
    ensures (m.messageCategory.None? || m.messageCategory.value == "") ==>
              r == m.(messageCategory := Some(if m.kind == "user" then "user_query" else "assistant_response"))
  {
    if m.messageCategory.None? || m.messageCategory.value == "" then
      m.(messageCategory := Some(if m.kind == "user" then "user_query" else "assistant_response"))
    else m
  }

  /** The session after appending a message, as `addMessage` builds it. */
  function WithMessage(s: ChatSession, m: Message, now: int): (r: ChatSession)
    ensures r.messages == s.messages + [Categorized(m)]
    ensures r.lastMessage == Preview(m.content) && r.lastUpdated == DateValue(now)
    ensures m.videos.Some? ==> r.videoCount == Some(|m.videos.value|)
    ensures m.videos.None? ==> r.videoCount == Some(if s.videoCount.Some? then s.videoCount.value else 0)
    ensures r == s.(messages := r.messages, lastMessage := r.lastMessage, lastUpdated := r.lastUpdated, videoCount := r.videoCount)
  {
    s.(messages := s.messages + [Categorized(m)], lastMessage := Preview(m.content), lastUpdated := DateValue(now),
       videoCount := Some(if m.videos.Some? then |m.videos.value| else if s.videoCount.Some? then s.videoCount.value else 0))
  }

  /** A chat id the hook works on: neither empty nor "new". */
  predicate ActiveChat(chatId: string) { chatId != "" && chatId != "new" }

  /** `saveResult.error || fallback`. */
  function ErrorText(failure: string, fallback: string): string
  {
    if failure != "" then failure else fallback
  }

  /** The hook's state over the shared store. */
  class ChatHistoryHook {
    const chatId: string
    const store: ChatSessionStorage
    var messages: seq<Message>
    var sessionInfo: Option<ChatSession>
    var error: Option<string>

    constructor(chatId: string, store: ChatSessionStorage)
      ensures this.chatId == chatId && this.store == store
      ensures messages == [] && sessionInfo.None? && error.None?
    {
      this.chatId := chatId;
      this.store := store;
      messages := [];
      sessionInfo := None;
      error := None;
    }

    /**
     * `loadHistory`: an empty or "new" id clears the state; otherwise the
     * stored session (or a fresh one) becomes the session and its shown
     * messages the list.
     */
    method LoadHistory(targetChatId: string, now: int)
      modifies this
      ensures !ActiveChat(targetChatId) ==> messages == [] && sessionInfo.None? && error == old(error)
      ensures ActiveChat(targetChatId) ==>
                var s := LoadFrom(store.storage, targetChatId, now, store.parseDate);
                sessionInfo == Some(s) && messages == Display(s.messages, store.parseDate) && error.None?
    {
      if !ActiveChat(targetChatId) {
        messages := [];
        sessionInfo := None;
        return;
      }
      error := None;
      var session := store.Load(targetChatId, now);
      sessionInfo := Some(session);
      messages := Display(session.messages, store.parseDate);
    }

    /** The session the edits start from: the one shown, or else the stored one. */
    method CurrentSession(now: int) returns (s: ChatSession)
      ensures s == (if sessionInfo.Some? then sessionInfo.value else LoadFrom(store.storage, chatId, now, store.parseDate))
    {
      if sessionInfo.Some? {
        s := sessionInfo.value;
      } else {
        s := store.Load(chatId, now);
      }
    }

    /**
     * `addMessage`: the categorised message is appended to the session and
     * the whole session saved; on success the session is kept and the
     * message, unless it is a progress or analysis message, is shown; on
     * failure the error is recorded and false returned.
     */
    method AddMessage(m: Message, now: int, failure: Option<string>) returns (ok: bool)
      modifies this, store
      ensures !ActiveChat(chatId) ==> !ok && unchanged(this) && unchanged(store)
      ensures ActiveChat(chatId) ==>
                var updated := WithMessage(if old(sessionInfo).Some? then old(sessionInfo).value
                                           else LoadFrom(old(store.storage), chatId, now, store.parseDate), m, now);
                (ok <==> failure.None?) &&
                (ok ==> store.storage == old(store.storage)[StorageKey(chatId) := SessionText(Serialize(updated, store.iso))] &&
                        sessionInfo == Some(updated) &&
                        messages == old(messages) + (if Shown(m) then [m] else []) && error == old(error)) &&
                (!ok ==> store.storage == old(store.storage) && sessionInfo == old(sessionInfo) &&
                         messages == old(messages) && error == Some(ErrorText(failure.value, "Failed to save message")))
    {
      if !ActiveChat(chatId) {
        return false;
      }
      var current := CurrentSession(now);
      var updated := WithMessage(current, m, now);
      var saved := store.Save(chatId, updated, failure);
      if saved.success {
        sessionInfo := Some(updated);
        if Shown(m) {
          messages := messages + [m];
        }
        ok := true;
      } else {
        error := Some(ErrorText(saved.error.value, "Failed to save message"));
        ok := false;
      }
    }

    /**
     * `updateMessage`: the message with that id is patched in the session,
     * which is saved with a new update time; on success the shown list is
     * patched the same way.
     */
    method UpdateMessage(messageId: string, p: MessagePatch, now: int, failure: Option<string>) returns (ok: bool)
      modifies this, store
      ensures !ActiveChat(chatId) ==> !ok && unchanged(this) && unchanged(store)
      ensures ActiveChat(chatId) ==>
                var current := if old(sessionInfo).Some? then old(sessionInfo).value
                               else LoadFrom(old(store.storage), chatId, now, store.parseDate);
                var updated := current.(messages := PatchById(current.messages, messageId, p), lastUpdated := DateValue(now));
                (ok <==> failure.None?) &&
                (ok ==> store.storage == old(store.storage)[StorageKey(chatId) := SessionText(Serialize(updated, store.iso))] &&
                        sessionInfo == Some(updated) && messages == PatchById(old(messages), messageId, p) && error == old(error)) &&
                (!ok ==> store.storage == old(store.storage) && sessionInfo == old(sessionInfo) && messages == old(messages) &&
                         error == Some(ErrorText(failure.value, "Failed to update message")))
    {
      if !ActiveChat(chatId) {
        return false;
      }
      var current := CurrentSession(now);
      var updated := current.(messages := PatchById(current.messages, messageId, p), lastUpdated := DateValue(now));
      var saved := store.Save(chatId, updated, failure);
      if saved.success {
        sessionInfo := Some(updated);
        messages := PatchById(messages, messageId, p);
        ok := true;
      } else {
        error := Some(ErrorText(saved.error.value, "Failed to update message"));
        ok := false;
      }
    }

    /** `saveSession`: saves the session shown; false without one or for an inactive id. */
    method SaveSession(failure: Option<string>) returns (ok: bool)
      modifies this, store
      ensures !ActiveChat(chatId) || sessionInfo.None? ==> !ok && unchanged(this) && unchanged(store)
      ensures ActiveChat(chatId) && sessionInfo.Some? ==>
                (ok <==> failure.None?) && sessionInfo == old(sessionInfo) && messages == old(messages) &&
                (ok ==> store.storage == old(store.storage)[StorageKey(chatId) := SessionText(Serialize(sessionInfo.value, store.iso))] &&
                        error == old(error)) &&
                (!ok ==> store.storage == old(store.storage) && error == Some(ErrorText(failure.value, "Failed to save session")))
    {
      if !ActiveChat(chatId) || sessionInfo.None? {
        return false;
      }
      var saved := store.Save(chatId, sessionInfo.value, failure);
      if saved.success {
        ok := true;
      } else {
        error := Some(ErrorText(saved.error.value, "Failed to save session"));
        ok := false;
      }
    }

    /** `clearMessages`: deletes the stored session and, on success, clears the state. */
    method ClearMessages(failure: Option<string>) returns (ok: bool)
      modifies this, store
      ensures !ActiveChat(chatId) ==> !ok && unchanged(this) && unchanged(store)
      ensures ActiveChat(chatId) ==>
                (ok <==> failure.None?) &&
                (ok ==> store.storage == old(store.storage) - {StorageKey(chatId)} && messages == [] && sessionInfo.None? &&
                        error == old(error)) &&
                (!ok ==> store.storage == old(store.storage) && messages == old(messages) && sessionInfo == old(sessionInfo) &&
                         error == Some(ErrorText(failure.value, "Failed to clear messages")))
    {
      if !ActiveChat(chatId) {
        return false;
      }
      var cleared := store.Delete(chatId, failure);
      if cleared.success {
        messages := [];
        sessionInfo := None;
        ok := true;
      } else {
        error := Some(ErrorText(cleared.error.value, "Failed to clear messages"));
        ok := false;
      }
    }
  }

  /** After an added message is saved, loading the chat again shows it last (when it is an ordinary message). */
  lemma AddedMessageReloads(storage: map<string, StoredText>, chatId: string, s: ChatSession, m: Message, now: int, later: int,
                            iso: int -> string, parseDate: string -> int)
    requires Shown(m)
    ensures var after := storage[StorageKey(chatId) := SessionText(Serialize(WithMessage(s, m, now), iso))];
            var shown := Display(LoadFrom(after, chatId, later, parseDate).messages, parseDate);
            |shown| > 0 && shown[|shown| - 1] == ReviveTimestamp(Categorized(m).(timestamp := Freeze(m.timestamp, iso)), parseDate)
  {
    var w := WithMessage(s, m, now);
    var frozen := Serialize(w, iso).messages;
    var last := Categorized(m).(timestamp := Freeze(m.timestamp, iso));
    var after := storage[StorageKey(chatId) := SessionText(Serialize(w, iso))];
    assert LoadFrom(after, chatId, later, parseDate).messages == frozen;
    FrozenLast(w, m, iso);
    assert frozen == frozen[..|frozen| - 1] + [last];
    DisplayAppend(frozen[..|frozen| - 1], last, parseDate);
  }

  /** The stored copy of a session ending in a message ends in that message with its timestamp frozen. */
  lemma FrozenLast(w: ChatSession, m: Message, iso: int -> string)
    requires |w.messages| > 0 && w.messages[|w.messages| - 1] == Categorized(m)
    ensures var frozen := Serialize(w, iso).messages;
            |frozen| > 0 && frozen[|frozen| - 1] == Categorized(m).(timestamp := Freeze(m.timestamp, iso))
  {
    assert Categorized(m).timestamp == m.timestamp;
  }

  /** Showing a list with one more ordinary message at the end shows that message last. */
  lemma {:induction false} DisplayAppend(messages: seq<Message>, m: Message, parseDate: string -> int)
    requires Shown(m)
    ensures Display(messages + [m], parseDate) == Display(messages, parseDate) + [ReviveTimestamp(m, parseDate)]
  {
    if |messages| == 0 {
      assert messages + [m] == [m];
    } else {
      assert (messages + [m])[1..] == messages[1..] + [m];
      DisplayAppend(messages[1..], m, parseDate);
    }
  }

  /** Patching an id no message has leaves the list as it was. */
  lemma PatchUnknownId(messages: seq<Message>, messageId: string, p: MessagePatch)
    requires forall k :: 0 <= k < |messages| ==> messages[k].id != messageId
    ensures PatchById(messages, messageId, p) == messages
  {
  }
}
