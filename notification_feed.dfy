/** The notification feed of `ViewModels/NotificationViewModel.swift`: the
    live list of a user's notifications, the "Say Hi" greeting that opens a
    chat, and the status updates that resolve a notification. */
module NotificationFeed {
  import opened Wrappers
  import opened Documents
  import opened Seqs
  import opened ChatModels
  import opened Backend

  /** The greeting text of the "Say Hi" path. */
  const HiText: string := "Hey, how have you been?"
  const AcceptedStatus: string := "accepted"

  /** The snapshot filter `receiverId == uid || senderId == uid`. */
  predicate Involves(d: Doc, uid: string) {
    GetStr(d, "receiverId") == Some(uid) || GetStr(d, "senderId") == Some(uid)
  }

  /** The snapshot order `order(by: "timestamp", descending: true)`. */
  predicate NewestFirst(docs: seq<DocSnapshot>) {
    forall i, j :: 0 <= i < j < |docs| ==> GetTs(docs[j].data, "timestamp").GetOr(0) <= GetTs(docs[i].data, "timestamp").GetOr(0)
  }

  /** The message document `sendHiMessage` adds. */
  function HiMessageDoc(senderId: string, receiverId: string, senderName: string, receiverName: string, now: int): Doc {
    map[
      "senderId" := Str(senderId),
      "receiverId" := Str(receiverId),
      "senderName" := Str(senderName),
      "receiverName" := Str(receiverName),
      "text" := Str(HiText),
      "timestamp" := Ts(now)]
  }

  /** The chat document `sendHiMessage` creates when there is none. */
  function HiChatDoc(chatId: string, senderId: string, receiverId: string, sender: UserInfo, receiver: UserInfo, now: int): Doc {
    map[
      "chatId" := Str(chatId),
      "participants" := StrList([senderId, receiverId]),
      "senderId" := Str(senderId),
      "senderName" := Str(sender.name),
      "receiverId" := Str(receiverId),
      "receiverName" := Str(receiver.name),
      "profileImageURL" := Str(receiver.imageUrl.GetOr("")),
      "lastMessage" := Str(HiText),
      "timeStamp" := Ts(now)]
  }

  /** The message of `sendResponseNotification`: "accepted" for the type
      "accepted", "declined" for any other type. */
  function ResponseMessage(senderName: string, kind: string): (message: string)
    ensures |senderName| < |message| && message[..|senderName|] == senderName
    ensures message[|senderName|..] == " accepted your chat request" <==> kind == "accepted"
    ensures kind != "accepted" ==> message[|senderName|..] == " declined your chat request"
  {
    senderName + (if kind == "accepted" then " accepted your chat request" else " declined your chat request")
  }

  /** The document `sendResponseNotification` adds. */
  function ResponseDoc(receiverId: string, senderId: string, senderName: string, senderImageUrl: Option<string>,
                       kind: string, now: int): Doc
  {
    map[
      "senderId" := Str(senderId),
      "receiverId" := Str(receiverId),
      "senderName" := Str(senderName),
      "receiverName" := Str(""),
      "senderImageUrl" := Str(senderImageUrl.GetOr("")),
      "type" := Str(kind),
      "message" := Str(ResponseMessage(senderName, kind)),
      "timestamp" := Ts(now)]
  }

  /** The notifications after `updateData(["status": status])` on `id`: the
      update is dropped (`try?`) when the call fails or the document is gone. */
  function WithStatus(notifications: map<string, Doc>, id: string, status: string, write: Step): map<string, Doc> {
    Updated(notifications, id, map["status" := Str(status)], write)
  }

  /** The store after `markAsResponded(notificationId:status:)`. */
  function Responded(s: Store, id: string, status: string, write: Step): Store {
    s.(notifications := WithStatus(s.notifications, id, status, write))
  }

  /** The three writes of `sendHiMessage` once both users are read: the
      chat is created only when it is known to be missing and the write goes
      through; the greeting is added under `messageId`, and the notification
      marked "accepted", each only if its own call goes through. */
  function Greeted(s: Store, senderId: string, userId: string, chatId: string, notificationId: string,
                   chatMissing: bool, sender: UserInfo, receiver: UserInfo,
                   chatWrite: Step, messageWrite: Step, statusWrite: Step, now: int, messageId: string): Store
  {
    s.(
      chats :=
        if chatMissing && chatWrite.Ok?
        then s.chats[chatId := HiChatDoc(chatId, senderId, userId, sender, receiver, now)]
        else s.chats,
      messages :=
        if messageWrite.Ok?
        then s.PutMessage(chatId, messageId, HiMessageDoc(senderId, userId, sender.name, receiver.name, now)).messages
        else s.messages,
      notifications := WithStatus(s.notifications, notificationId, AcceptedStatus, statusWrite))
  }

  /** The store after `sendHiMessage`. `senderId` is the signed-in uid.
      Nothing is written without one or when either user read fails;
      otherwise the writes of `Greeted`, where the chat counts as missing
      only when the existence read succeeded and found no chat. */
  function AfterHi(s: Store, senderId: Option<string>, userId: string, chatId: string, notificationId: string,
                   existsRead: Step, senderRead: Step, receiverRead: Step,
                   chatWrite: Step, messageWrite: Step, statusWrite: Step, now: int, messageId: string): (r: Store)
    ensures forall c :: c in r.chats ==> c in s.chats || c == chatId
    ensures r.notifications.Keys == s.notifications.Keys
    ensures r.users == s.users && r.requests == s.requests && r.reports == s.reports
  {
    if senderId.None? then s
    else
    var sender := FetchUserInfo(s.users, senderId.value, senderRead);
    var receiver := FetchUserInfo(s.users, userId, receiverRead);
    if sender.None? || receiver.None? then s
    else Greeted(s, senderId.value, userId, chatId, notificationId, existsRead.Ok? && chatId !in s.chats,
                 sender.value, receiver.value, chatWrite, messageWrite, statusWrite, now, messageId)
  }

  class NotificationViewModel {
    var notifications: seq<NotificationModel>
    var isLoading: bool
    var errorMessage: string
    const db: Database

    constructor(db: Database)
      ensures this.db == db && notifications == [] && !isLoading && errorMessage == ""
    {
      this.db := db;
      notifications := [];
      isLoading := false;
      errorMessage := "";
    }

    /** The snapshot handler of `listenForNotifications(for:)`: the list is
        replaced by the decodable documents, and by [] for a nil snapshot. */
    method OnNotificationsSnapshot(snapshot: Option<seq<DocSnapshot>>)
      modifies this
      ensures notifications == if snapshot.Some? then FilterMap(snapshot.value, NotificationOf) else []
      ensures isLoading == old(isLoading) && errorMessage == old(errorMessage)
    {
      notifications := if snapshot.Some? then FilterMap(snapshot.value, NotificationOf) else [];
    }

    /** `sendHiMessage(to:chatId:notificationId:)`; `senderId` is the signed-in
        uid, nil when nobody is signed in. */
    method SendHiMessage(senderId: Option<string>, userId: string, chatId: string, notificationId: string,
                         existsRead: Step, senderRead: Step, receiverRead: Step,
                         chatWrite: Step, messageWrite: Step, statusWrite: Step, now: int)
      returns (ghost messageId: string)
      modifies db
      ensures db.store == AfterHi(old(db.store), senderId, userId, chatId, notificationId, existsRead, senderRead,
                                  receiverRead, chatWrite, messageWrite, statusWrite, now, messageId)
      ensures messageId !in old(db.store.Messages(chatId))
    {
      messageId := NewId(db.store.Messages(chatId).Keys);
      if senderId.None? {
        return;
      }
      var chatExists: Option<bool> := if existsRead.Ok? then Some(chatId in db.store.chats) else None;
      var sender := FetchUserInfo(db.store.users, senderId.value, senderRead);
      if sender.None? {
        return;
      }
      var receiver := FetchUserInfo(db.store.users, userId, receiverRead);
      if receiver.None? {
        return;
      }
      messageId := WriteGreeting(senderId.value, userId, chatId, notificationId, chatExists == Some(false),
                                 sender.value, receiver.value, chatWrite, messageWrite, statusWrite, now);
    }

    /** The writes of `sendHiMessage` after both user reads succeeded. */
    method WriteGreeting(senderId: string, userId: string, chatId: string, notificationId: string,
                         chatMissing: bool, sender: UserInfo, receiver: UserInfo,
                         chatWrite: Step, messageWrite: Step, statusWrite: Step, now: int)
      returns (ghost messageId: string)
      modifies db
      ensures db.store == Greeted(old(db.store), senderId, userId, chatId, notificationId, chatMissing,
                                  sender, receiver, chatWrite, messageWrite, statusWrite, now, messageId)
      ensures messageId !in old(db.store.Messages(chatId))
    {
      messageId := NewId(db.store.Messages(chatId).Keys);
      var message := HiMessageDoc(senderId, userId, sender.name, receiver.name, now);
      if chatMissing && chatWrite.Ok? {
        db.SetData(Chats, chatId, HiChatDoc(chatId, senderId, userId, sender, receiver, now));
      }
      if messageWrite.Ok? {
        messageId := db.AddMessage(chatId, message);
      }
      var _ := db.TryUpdate(Notifications, notificationId, map["status" := Str(AcceptedStatus)], statusWrite);
    }

    /** `markAsResponded(notificationId:status:)`: sets the `status` field;
        failures are swallowed. */
    method MarkAsResponded(notificationId: string, status: string, write: Step)
      modifies db
      ensures db.store == Responded(old(db.store), notificationId, status, write)
    {
      var _ := db.TryUpdate(Notifications, notificationId, map["status" := Str(status)], write);
    }

    /** `deleteNotification(notificationId:)`; failures are swallowed. */
    method DeleteNotification(notificationId: string, write: Step)
      modifies db
      ensures db.store == if write.Ok? then old(db.store).Remove(Notifications, notificationId) else old(db.store)
    {
      if write.Ok? {
        db.Delete(Notifications, notificationId);
      }
    }

    /** `sendResponseNotification(to:from:senderName:senderImageUrl:type:)`:
        adds a new notification under a generated id; a failure is only logged. */
    method SendResponseNotification(receiverId: string, senderId: string, senderName: string,
                                    senderImageUrl: Option<string>, kind: string, write: Step, now: int)
      returns (ghost notificationId: string)
      modifies db
      ensures write.Failed? ==> db.store == old(db.store)
      ensures write.Ok? ==>
        && notificationId !in old(db.store.notifications)
        && db.store == old(db.store).Put(Notifications, notificationId,
                                         ResponseDoc(receiverId, senderId, senderName, senderImageUrl, kind, now))
    {
      notificationId := "";
      if write.Ok? {
        notificationId := db.Add(Notifications, ResponseDoc(receiverId, senderId, senderName, senderImageUrl, kind, now));
      }
    }
  }

  // ------------------------------------------------------------ properties

  /** With the listener's filter and order, every listed notification
      involves the user, and the list runs from newest to oldest. */
  lemma FeedInvolvesUserNewestFirst(uid: string, docs: seq<DocSnapshot>)
    requires forall i :: 0 <= i < |docs| ==> Involves(docs[i].data, uid)
    requires NewestFirst(docs)
    ensures forall n :: n in FilterMap(docs, NotificationOf) ==> n.receiverId == uid || n.senderId == uid
    ensures Ordered(FilterMap(docs, NotificationOf), (m: NotificationModel, n: NotificationModel) => n.timestamp <= m.timestamp)
  {
    forall n | n in FilterMap(docs, NotificationOf) ensures n.receiverId == uid || n.senderId == uid {
      FilterMapMembers(docs, NotificationOf, n);
    }
    FilterMapOrdered(docs, NotificationOf, (m: NotificationModel, n: NotificationModel) => n.timestamp <= m.timestamp);
  }

  /** The greeting is a well-formed message from the sender to the target
      with the fixed text. */
  lemma HiMessageDecodes(id: string, senderId: string, userId: string, senderName: string, receiverName: string, now: int)
    ensures DecodeMessage(id, HiMessageDoc(senderId, userId, senderName, receiverName, now)) ==
      Some(MessageModel(id, senderId, userId, senderName, receiverName, HiText, now, []))
  {
  }

  /** The chat created beside the greeting lists both users and shows the
      greeting as its last message. */
  lemma HiChatShowsGreeting(chatId: string, senderId: string, userId: string,
                            sender: UserInfo, receiver: UserInfo, now: int, decodedAt: int)
    ensures var chat := DecodeChat(chatId, HiChatDoc(chatId, senderId, userId, sender, receiver, now), decodedAt);
      chat.lastMessage == HiText && chat.participants == [senderId, userId] && chat.timeStamp == now
  {
  }

  /** Marking a notification changes its decoded form only in `status`, which
      becomes the given value: the card turns into a resolved card. */
  lemma MarkedNotificationDecodes(id: string, d: Doc, status: string)
    ensures DecodeNotification(id, d + map["status" := Str(status)]) ==
      if DecodeNotification(id, d).Some? then Some(DecodeNotification(id, d).value.(status := Some(status))) else None
  {
    var e := d + map["status" := Str(status)];
    assert e == d["status" := Str(status)];
  }

  /** A response notification decodes exactly when its type is a known one;
      it is unresolved and has an empty receiver name, and any type other
      than "accepted" is worded as a decline. */
  lemma ResponseNotificationDecodes(id: string, receiverId: string, senderId: string, senderName: string,
                                    senderImageUrl: Option<string>, kind: string, now: int)
    ensures var r := DecodeNotification(id, ResponseDoc(receiverId, senderId, senderName, senderImageUrl, kind, now));
      && (r.Some? <==> ParseType(kind).Some?)
      && (r.Some? ==> r.value.status.None? && r.value.receiverName == "")
      && (r.Some? && r.value.kind != Accepted ==> r.value.message == senderName + " declined your chat request")
  {
  }
}
