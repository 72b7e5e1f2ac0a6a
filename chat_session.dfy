/** One conversation, `ViewModels/Chat/ChatSessionViewModel.swift`: loading
    its messages, sending one, and creating the chat document on demand. */
module ChatSession {
  import opened Wrappers
  import opened Documents
  import opened Seqs
  import opened ChatModels
  import opened Backend

  /** The first message text of a chat created by `createChatIfNotExists`. */
  const WelcomeText: string := "Hi, how are you?"

  /** The query order `order(by: "timestamp", descending: false)`. */
  predicate OldestFirst(docs: seq<DocSnapshot>) {
    forall i, j :: 0 <= i < j < |docs| ==> GetTs(docs[i].data, "timestamp").GetOr(0) <= GetTs(docs[j].data, "timestamp").GetOr(0)
  }

  /** The message document `sendMessage` adds: sender, text and time only. */
  function SentMessageDoc(uid: string, text: string, now: int): Doc {
    map["senderId" := Str(uid), "text" := Str(text), "timestamp" := Ts(now)]
  }

  /** The chat document `createChatIfNotExists` writes. */
  function CreatedChatDoc(chatId: string, user1Id: string, user2Id: string, user2Name: string, user2Image: string, now: int): Doc {
    map[
      "chatId" := Str(chatId),
      "participants" := StrList([user1Id, user2Id]),
      "userId" := Str(user2Id),
      "userName" := Str(user2Name),
      "profileImageURL" := Str(user2Image),
      "lastMessage" := Str(WelcomeText),
      "timeStamp" := Ts(now)]
  }

  class ChatSessionViewModel {
    var messages: seq<MessageModel>
    var isLoading: bool
    var errorMessage: string
    const db: Database

    constructor(db: Database)
      ensures this.db == db && messages == [] && !isLoading && errorMessage == ""
    {
      this.db := db;
      messages := [];
      isLoading := false;
      errorMessage := "";
    }

    /** `fetchMessages(chatId:)`: the list becomes the decodable messages in
        query order; on failure it is kept and `errorMessage` is set. A
        success does not clear an earlier error. */
    method FetchMessages(chatId: string, result: QueryResult)
      modifies this
      ensures !isLoading
      ensures result.Documents? ==> messages == FilterMap(result.docs, MessageOf) && errorMessage == old(errorMessage)
      ensures result.QueryFailed? ==>
        messages == old(messages) && errorMessage == "Failed to load messages: " + result.reason
    {
      isLoading := true;
      match result {
        case Documents(docs) =>
          messages := FilterMap(docs, MessageOf);
        case QueryFailed(reason) =>
          errorMessage := "Failed to load messages: " + reason;
      }
      isLoading := false;
    }

    /** `sendMessage(chatId:text:)`: nothing without a signed-in `uid`; the
        text is sent as given, even empty; the parent chat is not touched. */
    method SendMessage(uid: Option<string>, chatId: string, text: string, write: Step, now: int)
      returns (ghost messageId: string)
      modifies this, db
      ensures messages == old(messages) && isLoading == old(isLoading)
      ensures uid.None? ==> db.store == old(db.store) && errorMessage == old(errorMessage)
      ensures uid.Some? && write.Failed? ==>
        db.store == old(db.store) && errorMessage == "Failed to send message: " + write.reason
      ensures uid.Some? && write.Ok? ==>
        && messageId !in old(db.store.Messages(chatId))
        && db.store == old(db.store).PutMessage(chatId, messageId, SentMessageDoc(uid.value, text, now))
        && errorMessage == old(errorMessage)
    {
      messageId := "";
      if uid.None? {
        return;
      }
      if write.Ok? {
        messageId := db.AddMessage(chatId, SentMessageDoc(uid.value, text, now));
      } else {
        errorMessage := "Failed to send message: " + write.reason;
      }
    }

    /** `createChatIfNotExists(...)`: writes only when the existence read
        succeeded and found nothing, so an existing chat is never replaced
        and a failed read writes nothing. */
    method CreateChatIfNotExists(chatId: string, user1Id: string, user2Id: string, user2Name: string, user2Image: string,
                                 existsRead: Step, write: Step, now: int)
      modifies db
      ensures db.store == old(db.store).(chats :=
        if existsRead.Ok? && chatId !in old(db.store.chats) && write.Ok?
        then old(db.store.chats)[chatId := CreatedChatDoc(chatId, user1Id, user2Id, user2Name, user2Image, now)]
        else old(db.store.chats))
    {
      var chatExists: Option<bool> := if existsRead.Ok? then Some(chatId in db.store.chats) else None;
      if chatExists == Some(false) && write.Ok? {
        db.SetData(Chats, chatId, CreatedChatDoc(chatId, user1Id, user2Id, user2Name, user2Image, now));
      }
    }
  }

  // ------------------------------------------------------------ properties

  /** Fetched messages come out oldest first, and each is the decoding of one
      of the fetched documents. */
  lemma FetchedMessagesInTimeOrder(docs: seq<DocSnapshot>)
    requires OldestFirst(docs)
    ensures Ordered(FilterMap(docs, MessageOf), (m: MessageModel, n: MessageModel) => m.timestamp <= n.timestamp)
    ensures forall m :: m in FilterMap(docs, MessageOf) ==> exists i :: 0 <= i < |docs| && MessageOf(docs[i]) == Some(m)
  {
    FilterMapOrdered(docs, MessageOf, (m: MessageModel, n: MessageModel) => m.timestamp <= n.timestamp);
    forall m | m in FilterMap(docs, MessageOf) ensures exists i :: 0 <= i < |docs| && MessageOf(docs[i]) == Some(m) {
      FilterMapMembers(docs, MessageOf, m);
    }
  }

  /** A message written by `sendMessage` lacks `receiverId`, `senderName` and
      `receiverName`, so `MessageModel.init?` rejects it and a later fetch
      drops it. */
  lemma SentMessageNotDecodable(id: string, uid: string, text: string, now: int)
    ensures DecodeMessage(id, SentMessageDoc(uid, text, now)).None?
  {
    assert GetStr(SentMessageDoc(uid, text, now), "receiverId").None?;
  }

  /** A fetch never lists a message `sendMessage` wrote. */
  lemma SentMessagesNeverFetched(docs: seq<DocSnapshot>, i: int, uid: string, text: string, now: int)
    requires 0 <= i < |docs| && docs[i].data == SentMessageDoc(uid, text, now)
    ensures forall m :: m in FilterMap(docs, MessageOf) ==> m.id != docs[i].id || exists j :: 0 <= j < |docs| && j != i && docs[j].id == docs[i].id
  {
    SentMessageNotDecodable(docs[i].id, uid, text, now);
    forall m | m in FilterMap(docs, MessageOf) && m.id == docs[i].id
      ensures exists j :: 0 <= j < |docs| && j != i && docs[j].id == docs[i].id
    {
      FilterMapMembers(docs, MessageOf, m);
      var j :| 0 <= j < |docs| && MessageOf(docs[j]) == Some(m);
      assert j != i;
    }
  }

  /** A created chat lists both users and shows the welcome text. */
  lemma CreatedChatDecodes(chatId: string, user1Id: string, user2Id: string, user2Name: string, user2Image: string,
                           now: int, decodedAt: int)
    ensures var chat := DecodeChat(chatId, CreatedChatDoc(chatId, user1Id, user2Id, user2Name, user2Image, now), decodedAt);
      chat.participants == [user1Id, user2Id] && chat.lastMessage == WelcomeText && chat.chatId == chatId
  {
  }
}
