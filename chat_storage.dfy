// The web client's chat-session store over the browser's key-value
// storage: one serialised session per chat id under a fixed key prefix,
// with dates written as ISO text and read back as dates.  The clock is the
// `now` parameter; date formatting and parsing are functions the store is
// given.

module ChatStorage {
  import opened Common

  const KeyPrefix := "videorag-chat-session-"

  /** A date field: a date (milliseconds) or its text. */
  datatype Stamp = DateValue(ms: int) | Text(text: string)

  /** A chat message; an absent flag reads as false. */
  datatype Message = Message(id: string, kind: string, content: string, timestamp: Stamp,
                             status: Option<string>, messageCategory: Option<string>,
                             videos: Option<seq<string>>, isProgressBar: bool, isQueryAnalyzing: bool)

  datatype ChatSession = ChatSession(id: string, title: string, createdAt: Stamp, lastUpdated: Stamp,
                                     videos: seq<string>, analysisState: string, messages: seq<Message>,
                                     lastMessage: string, videoCount: Option<int>)

  /** What a storage slot holds: a serialised session, or text that does not parse as one. */
  datatype StoredText = SessionText(session: ChatSession) | OtherText(raw: string)

  datatype SaveResult = SaveResult(success: bool, error: Option<string>)

  function StorageKey(chatId: string): (r: string)
    ensures KeyPrefix <= r && r[|KeyPrefix|..] == chatId
  {
    KeyPrefix + chatId
  }

  /** Distinct chat ids use distinct keys. */
  lemma StorageKeyInjective(a: string, b: string)
    requires StorageKey(a) == StorageKey(b)
    ensures a == b
  {
    assert a == StorageKey(a)[|KeyPrefix|..];
  }

  /** `createEmptySession`: "New Chat", nothing analysed, no messages, created and updated now. */
  function EmptySession(chatId: string, now: int): (r: ChatSession)
    ensures r.id == chatId && r.title == "New Chat" && r.analysisState == "none"
    ensures r.messages == [] && r.videos == [] && r.lastMessage == "" && r.videoCount == Some(0)
    ensures r.createdAt == DateValue(now) && r.lastUpdated == DateValue(now)
  {
    ChatSession(chatId, "New Chat", DateValue(now), DateValue(now), [], "none", [], "", Some(0))
  }

  /** JSON serialisation writes every date as its ISO text. */
  function Freeze(s: Stamp, iso: int -> string): (r: Stamp)
    ensures r.Text?
    ensures s.Text? ==> r == s
  {
    if s.DateValue? then Text(iso(s.ms)) else s
  }

  /** `save`'s text: the two session dates converted explicitly, the message timestamps by JSON itself. */
  function Serialize(session: ChatSession, iso: int -> string): (r: ChatSession)
    ensures r.createdAt.Text? && r.lastUpdated.Text?
    ensures |r.messages| == |session.messages|
    ensures forall k :: 0 <= k < |r.messages| ==>
              r.messages[k] == session.messages[k].(timestamp := Freeze(session.messages[k].timestamp, iso))
    ensures r == session.(createdAt := r.createdAt, lastUpdated := r.lastUpdated, messages := r.messages)
  {
    session.(createdAt := Freeze(session.createdAt, iso), lastUpdated := Freeze(session.lastUpdated, iso),
             messages := seq(|session.messages|, k requires 0 <= k < |session.messages| =>
                           session.messages[k].(timestamp := Freeze(session.messages[k].timestamp, iso))))
  }

  /** `load`'s conversion of a session date: non-empty text becomes a date, anything else stays. */
  function Revive(s: Stamp, parseDate: string -> int): (r: Stamp)
    ensures s.Text? && s.text != "" ==> r == DateValue(parseDate(s.text))
    ensures !(s.Text? && s.text != "") ==> r == s
  {
    if s.Text? && s.text != "" then DateValue(parseDate(s.text)) else s
  }

  /**
   * `load` on a storage map: a missing or empty slot, or text that does not
   * parse, gives a fresh empty session; otherwise the stored session with
   * its two dates read back.
   */
  function LoadFrom(storage: map<string, StoredText>, chatId: string, now: int, parseDate: string -> int): (r: ChatSession)
    ensures StorageKey(chatId) !in storage ==> r == EmptySession(chatId, now)
    ensures StorageKey(chatId) in storage && storage[StorageKey(chatId)].OtherText? ==> r == EmptySession(chatId, now)
    ensures StorageKey(chatId) in storage && storage[StorageKey(chatId)].SessionText? ==>
              var s := storage[StorageKey(chatId)].session;
              r == s.(createdAt := Revive(s.createdAt, parseDate), lastUpdated := Revive(s.lastUpdated, parseDate))
  {
    var key := StorageKey(chatId);
    if key !in storage || storage[key].OtherText? then EmptySession(chatId, now)
    else
      var s := storage[key].session;
      s.(createdAt := Revive(s.createdAt, parseDate), lastUpdated := Revive(s.lastUpdated, parseDate))
  }

  /** The chat ids of the stored sessions: every key with the prefix, the prefix removed. */
  function ChatIds(storage: map<string, StoredText>): (r: set<string>)
    ensures forall id :: id in r <==> StorageKey(id) in storage
  {
    var r := set k | k in storage && KeyPrefix <= k :: k[|KeyPrefix|..];
    assert forall id :: StorageKey(id) in storage ==> id in r by {
      forall id | StorageKey(id) in storage
        ensures id in r
      {
        assert StorageKey(id)[|KeyPrefix|..] == id;
      }
    }
    assert forall id :: id in r ==> StorageKey(id) in storage by {
      forall id | id in r
        ensures StorageKey(id) in storage
      {
        var k :| k in storage && KeyPrefix <= k && k[|KeyPrefix|..] == id;
        assert k == KeyPrefix + k[|KeyPrefix|..];
      }
    }
    r
  }

  /** The store over the browser's storage map. */
  class ChatSessionStorage {
    var storage: map<string, StoredText>
    const iso: int -> string
    const parseDate: string -> int

    constructor(storage: map<string, StoredText>, iso: int -> string, parseDate: string -> int)
      ensures this.storage == storage && this.iso == iso && this.parseDate == parseDate
    {
      this.storage := storage;
      this.iso := iso;
      this.parseDate := parseDate;
    }

    /** `load`. */
    method Load(chatId: string, now: int) returns (session: ChatSession)
      ensures session == LoadFrom(storage, chatId, now, parseDate)
    {
      var key := StorageKey(chatId);
      if key !in storage {
        return EmptySession(chatId, now);
      }
      match storage[key]
      case OtherText(raw) =>
        session := EmptySession(chatId, now);
      case SessionText(s) =>
        session := s;
        if session.createdAt.Text? && session.createdAt.text != "" {
          session := session.(createdAt := DateValue(parseDate(session.createdAt.text)));
        }
        if session.lastUpdated.Text? && session.lastUpdated.text != "" {
          session := session.(lastUpdated := DateValue(parseDate(session.lastUpdated.text)));
        }
    }

    /**
     * `save`: writes the serialised session under the chat's key and
     * reports success, or, when the storage refuses with `failure`, reports
     * that message and changes nothing.
     */
    method Save(chatId: string, session: ChatSession, failure: Option<string>) returns (r: SaveResult)
      modifies this
      ensures failure.None? ==> r == SaveResult(true, None) &&
                                storage == old(storage)[StorageKey(chatId) := SessionText(Serialize(session, iso))]
      ensures failure.Some? ==> r == SaveResult(false, failure) && storage == old(storage)
    {
      if failure.Some? {
        return SaveResult(false, failure);
      }
      storage := storage[StorageKey(chatId) := SessionText(Serialize(session, iso))];
      r := SaveResult(true, None);
    }

    /** `delete`: removes the chat's key, with the same reporting as `save`. */
    method Delete(chatId: string, failure: Option<string>) returns (r: SaveResult)
      modifies this
      ensures failure.None? ==> r == SaveResult(true, None) && storage == old(storage) - {StorageKey(chatId)}
      ensures failure.Some? ==> r == SaveResult(false, failure) && storage == old(storage)
    {
      if failure.Some? {
        return SaveResult(false, failure);
      }
      storage := storage - {StorageKey(chatId)};
      r := SaveResult(true, None);
    }

    /** `getAllChatIds`. */
    function GetAllChatIds(): (r: set<string>)
      reads this
      ensures forall id :: id in r <==> StorageKey(id) in storage
    {
      ChatIds(storage)
    }
  }

  /**
   * Saving then loading gives the session back with its dates as dates:
   * a date field comes back unchanged when reading back its ISO text gives
   * the same date, and everything but the dates is kept.
   */
  lemma LoadAfterSave(storage: map<string, StoredText>, chatId: string, session: ChatSession, now: int,
                      iso: int -> string, parseDate: string -> int)
    requires forall ms :: iso(ms) != "" && parseDate(iso(ms)) == ms
    requires session.createdAt.DateValue? && session.lastUpdated.DateValue?
    ensures var loaded := LoadFrom(storage[StorageKey(chatId) := SessionText(Serialize(session, iso))], chatId, now, parseDate);
            loaded == session.(messages := loaded.messages) &&
            |loaded.messages| == |session.messages| &&
            forall k :: 0 <= k < |session.messages| ==> loaded.messages[k] == session.messages[k].(timestamp := Freeze(session.messages[k].timestamp, iso))
  {
    var s := Serialize(session, iso);
    assert Revive(s.createdAt, parseDate) == session.createdAt;
    assert Revive(s.lastUpdated, parseDate) == session.lastUpdated;
  }

  /** After a delete, loading gives a fresh empty session, and the id is no longer listed. */
  lemma LoadAfterDelete(storage: map<string, StoredText>, chatId: string, now: int, parseDate: string -> int)
    ensures LoadFrom(storage - {StorageKey(chatId)}, chatId, now, parseDate) == EmptySession(chatId, now)
    ensures chatId !in ChatIds(storage - {StorageKey(chatId)})
  {
  }

  /** After a save the id is listed, and the other ids are as before. */
  lemma ChatIdsAfterSave(storage: map<string, StoredText>, chatId: string, text: StoredText)
    ensures ChatIds(storage[StorageKey(chatId) := text]) == ChatIds(storage) + {chatId}
  {
    var after := ChatIds(storage[StorageKey(chatId) := text]);
    forall id | id in after
      ensures id in ChatIds(storage) + {chatId}
    {
      if id != chatId {
        if StorageKey(id) == StorageKey(chatId) {
          StorageKeyInjective(id, chatId);
        }
      }
    }
  }

  /** Saving one chat leaves every other chat's load as it was. */
  lemma SaveIsolated(storage: map<string, StoredText>, chatId: string, other: string, text: StoredText,
                     now: int, parseDate: string -> int)
    requires other != chatId
    ensures LoadFrom(storage[StorageKey(chatId) := text], other, now, parseDate) == LoadFrom(storage, other, now, parseDate)
  {
    if StorageKey(other) == StorageKey(chatId) {
      StorageKeyInjective(other, chatId);
    }
  }
}
