/** The chat-request workflow of `ViewModels/RequestViewModel.swift`: the
    relationship status between the signed-in user and a viewed user, and the
    send / accept / decline / cancel transitions on the request, chat and
    notification collections. */
module RequestFlow {
  import opened Wrappers
  import opened Documents
  import opened Strings
  import opened Seqs
  import opened ChatModels
  import opened UserModels
  import opened Backend

  /** `RequestViewModel.RequestStatus`; Swift's `.none` is `NoRelation` here. */
  datatype RequestStatus = NoRelation | Sent | Received | Accepted

  // ------------------------------------------------------------ store queries

  /** `doc["participants"] as? [String] ?? []` */
  function Participants(d: Doc): seq<string> {
    GetStrList(d, "participants").GetOr([])
  }

  /** The chats listing both `a` and `b` as participants. */
  function LinkingChats(chats: map<string, Doc>, a: string, b: string): (ids: set<string>)
    ensures ids <= chats.Keys
  {
    set id | id in chats && a in Participants(chats[id]) && b in Participants(chats[id])
  }

  /** Some chat lists both users. */
  predicate Linked(chats: map<string, Doc>, a: string, b: string) {
    LinkingChats(chats, a, b) != {}
  }

  /** The result of `whereField("participants", arrayContains: uid)`. */
  function ChatsOf(chats: map<string, Doc>, uid: string): set<string> {
    set id | id in chats && uid in Participants(chats[id])
  }

  /** A request document from `from` to `to`. */
  predicate IsRequestFrom(d: Doc, from: string, to: string) {
    GetStr(d, "senderId") == Some(from) && GetStr(d, "receiverId") == Some(to)
  }

  /** The result of `whereField("senderId", isEqualTo: from).whereField("receiverId", isEqualTo: to)`. */
  function RequestsBetween(requests: map<string, Doc>, from: string, to: string): (ids: set<string>)
    ensures ids <= requests.Keys
  {
    set id | id in requests && IsRequestFrom(requests[id], from, to)
  }

  predicate Pending(requests: map<string, Doc>, from: string, to: string) {
    RequestsBetween(requests, from, to) != {}
  }

  // ------------------------------------------------------------ status decision

  /** The four-way decision of `checkStatus`, in priority order. */
  function ResolveStatus(accepted: bool, sent: bool, received: bool): (st: RequestStatus)
    ensures st == RequestStatus.Accepted <==> accepted
    ensures st == Sent <==> !accepted && sent
    ensures st == Received <==> !accepted && !sent && received
    ensures st == NoRelation <==> !accepted && !sent && !received
  {
    if accepted then RequestStatus.Accepted
    else if sent then Sent
    else if received then Received
    else NoRelation
  }

  /** The status `checkStatus` settles on for a store and the outcome of its
      three queries. A failed chat query counts as "no chat", and a failed
      request query (`try?`) as "no documents". */
  function StatusOf(s: Store, current: string, viewed: string, chatQuery: Step, sentQuery: Step, receivedQuery: Step): (st: RequestStatus)
    ensures st == RequestStatus.Accepted <==> chatQuery.Ok? && Linked(s.chats, current, viewed)
    ensures st == Sent ==> Pending(s.requests, current, viewed)
    ensures st == Received ==> Pending(s.requests, viewed, current) && !(sentQuery.Ok? && Pending(s.requests, current, viewed))
    // every query failing leaves the buttons of a stranger
    ensures chatQuery.Failed? && sentQuery.Failed? && receivedQuery.Failed? ==> st == NoRelation
  {
    ResolveStatus(
      chatQuery.Ok? && Linked(s.chats, current, viewed),
      sentQuery.Ok? && Pending(s.requests, current, viewed),
      receivedQuery.Ok? && Pending(s.requests, viewed, current))
  }

  // ------------------------------------------------------------ written documents

  /** The request document `sendRequest` adds. */
  function RequestDocFor(user: UserModel, currentUser: UserModel, now: int): Doc {
    map[
      "senderId" := Str(currentUser.id),
      "receiverId" := Str(user.id),
      "senderName" := Str(currentUser.name),
      "receiverName" := Str(user.name),
      "age" := Int(currentUser.age),
      "location" := Str(currentUser.location),
      "bio" := Str(currentUser.bio),
      "profileImageUrl" := Str(currentUser.profileImageUrl.GetOr("")),
      "timestamp" := Ts(now)]
  }

  /** The chat document `acceptRequest` adds. */
  function AcceptedChatDoc(currentUserId: string, senderId: string, now: int): Doc {
    map[
      "participants" := StrList([currentUserId, senderId]),
      "lastMessage" := Str(""),
      "timeStamp" := Ts(now),
      "unreadCount" := Int(0),
      "userName" := Str(""),
      "profileImageURL" := Str("")]
  }

  /** The document `saveNotification` writes. It has no `status` key. */
  function NotificationDoc(senderId: string, senderName: string, senderImageUrl: Option<string>,
                           receiverId: string, receiverName: string, kind: string, message: string, now: int): Doc
  {
    map[
      "senderId" := Str(senderId),
      "receiverId" := Str(receiverId),
      "senderName" := Str(senderName),
      "receiverName" := Str(receiverName),
      "senderImageUrl" := Str(senderImageUrl.GetOr("")),
      "type" := Str(kind),
      "message" := Str(message),
      "timestamp" := Ts(now)]
  }

  /** `[a, b, kind].sorted().joined(separator: "_")`. The id does not depend
      on which of the two users acts. */
  function NotificationId(a: string, b: string, kind: string): (id: string)
    ensures id == SortedJoin([b, a, kind], "_")
  {
    assert multiset([a, b, kind]) == multiset([b, a, kind]);
    SortedJoinIgnoresOrder([a, b, kind], [b, a, kind], "_");
    SortedJoin([a, b, kind], "_")
  }

  /** Notifications after `saveNotification`: written on success; a failure is only logged. */
  function Saved(notifications: map<string, Doc>, id: string, doc: Doc, write: Step): map<string, Doc> {
    if write.Ok? then notifications[id := doc] else notifications
  }

  /** The notification step of accept, decline and cancel: both users' infos
      are read, and the notification is saved only when both reads succeed. */
  function NotifyAfterReply(s: Store, current: string, other: string, currentRead: Step, otherRead: Step,
                            kind: string, message: string, write: Step, now: int): map<string, Doc>
  {
    var me := FetchUserInfo(s.users, current, currentRead);
    var them := FetchUserInfo(s.users, other, otherRead);
    if me.Some? && them.Some? then
      Saved(s.notifications, NotificationId(current, other, kind),
            NotificationDoc(current, me.value.name, me.value.imageUrl, other, them.value.name, kind, message, now), write)
    else s.notifications
  }

  /** `after` is `before` minus some of `ids`, with nothing else changed. */
  predicate PartlyRemoved(before: map<string, Doc>, after: map<string, Doc>, ids: set<string>) {
    && after.Keys <= before.Keys
    && before.Keys - ids <= after.Keys
    && forall id :: id in after ==> after[id] == before[id]
  }

  /** What the query-then-delete loop of accept, decline and cancel leaves
      behind, with the error message it sets. A failed query deletes nothing;
      otherwise every request from `from` to `to` is deleted in some order,
      stopping at the first delete that fails. */
  predicate DeletePhase(before: map<string, Doc>, after: map<string, Doc>, from: string, to: string,
                        query: Step, deleteErrors: map<string, string>, prefix: string, err: string)
  {
    var ids := RequestsBetween(before, from, to);
    if query.Failed? then after == before && err == prefix + query.reason
    else if forall id :: id in ids ==> id !in deleteErrors then after == before - ids && err == ""
    else
      && PartlyRemoved(before, after, ids)
      && exists id :: id in ids && id in deleteErrors && id in after && err == prefix + deleteErrors[id]
  }

  /** The delete phase never adds a request or changes one it keeps, and it
      leaves an empty error message exactly when the query went through and
      every request in that direction is gone. */
  lemma DeletePhaseReportsIncomplete(before: map<string, Doc>, after: map<string, Doc>, from: string, to: string,
                                     query: Step, deleteErrors: map<string, string>, prefix: string, err: string)
    requires prefix != ""
    requires DeletePhase(before, after, from, to, query, deleteErrors, prefix, err)
    ensures after.Keys <= before.Keys
    ensures forall id :: id in after ==> after[id] == before[id]
    ensures err == "" <==> query.Ok? && after == before - RequestsBetween(before, from, to)
  {
    var ids := RequestsBetween(before, from, to);
    if query.Failed? {
      assert err == prefix + query.reason;
      assert |err| > 0;
    } else if forall id :: id in ids ==> id !in deleteErrors {
    } else {
      var id :| id in ids && id in deleteErrors && id in after && err == prefix + deleteErrors[id];
      assert |err| > 0;
      assert id !in before - ids;
    }
  }

  // ------------------------------------------------------------ view-model

  const AcceptFailed: string := "Accept failed: "
  const DeclineFailed: string := "Decline failed: "
  const CancelFailed: string := "Cancel failed: "
  const RequestMessage: string := "sent you a chat request"
  const AcceptedMessage: string := "accepted your chat request"
  const DeclinedMessage: string := "declined your chat request"
  const CancelledMessage: string := "cancelled the chat request"

  class RequestViewModel {
    var status: RequestStatus
    var isLoading: bool
    var errorMessage: string
    var incomingRequests: seq<RequestModel>
    const db: Database

    constructor(db: Database)
      ensures this.db == db
      ensures status == NoRelation && !isLoading && errorMessage == "" && incomingRequests == []
    {
      this.db := db;
      status := NoRelation;
      isLoading := false;
      errorMessage := "";
      incomingRequests := [];
    }

    /** `checkStatus(currentUserId:viewedUserId:)`. The chat loop returns at the
        first chat of the current user that also lists the viewed user. */
    method CheckStatus(currentUserId: string, viewedUserId: string, chatQuery: Step, sentQuery: Step, receivedQuery: Step)
      modifies this
      ensures status == StatusOf(db.store, currentUserId, viewedUserId, chatQuery, sentQuery, receivedQuery)
      ensures errorMessage == if chatQuery.Failed? then "Chat check failed: " + chatQuery.reason else ""
      ensures !isLoading
      ensures incomingRequests == old(incomingRequests)
    {
      isLoading := true;
      errorMessage := "";
      if chatQuery.Failed? {
        errorMessage := "Chat check failed: " + chatQuery.reason;
      } else {
        var chats := db.store.chats;
        var mine := ChatsOf(chats, currentUserId);
        var rest := mine;
        while rest != {}
          invariant rest <= mine
          invariant forall id :: id in mine && id !in rest ==> viewedUserId !in Participants(chats[id])
          decreases |rest|
        {
          var id :| id in rest;
          if viewedUserId in Participants(chats[id]) {
            assert id in LinkingChats(chats, currentUserId, viewedUserId);
            status := RequestStatus.Accepted;
            isLoading := false;
            return;
          }
          rest := rest - {id};
        }
        assert LinkingChats(chats, currentUserId, viewedUserId) == {};
      }
      if sentQuery.Ok? && Pending(db.store.requests, currentUserId, viewedUserId) {
        status := Sent;
        isLoading := false;
        return;
      }
      if receivedQuery.Ok? && Pending(db.store.requests, viewedUserId, currentUserId) {
        status := Received;
        isLoading := false;
        return;
      }
      status := NoRelation;
      isLoading := false;
    }

    /** `saveNotification(id:...)`: replaces the document under `id`. */
    method SaveNotification(id: string, senderId: string, senderName: string, senderImageUrl: Option<string>,
                            receiverId: string, receiverName: string, kind: string, message: string,
                            write: Step, now: int)
      modifies db
      ensures db.store == old(db.store).(notifications :=
        Saved(old(db.store.notifications), id,
              NotificationDoc(senderId, senderName, senderImageUrl, receiverId, receiverName, kind, message, now), write))
    {
      if write.Ok? {
        db.SetData(Notifications, id, NotificationDoc(senderId, senderName, senderImageUrl, receiverId, receiverName, kind, message, now));
      }
    }

    /** `sendRequest(to:from:)`: there is no check for a pending request. */
    method SendRequest(user: UserModel, currentUser: UserModel, write: Step, notifWrite: Step, now: int)
      returns (ghost requestId: string)
      modifies this, db
      ensures !isLoading && incomingRequests == old(incomingRequests)
      ensures write.Failed? ==>
        && db.store == old(db.store)
        && status == old(status)
        && errorMessage == "❌ Request failed: " + write.reason
      ensures write.Ok? ==>
        && status == Sent && errorMessage == ""
        && requestId !in old(db.store.requests)
        && db.store == old(db.store).(
             requests := old(db.store.requests)[requestId := RequestDocFor(user, currentUser, now)],
             notifications := Saved(old(db.store.notifications), NotificationId(currentUser.id, user.id, "request"),
               NotificationDoc(currentUser.id, currentUser.name, currentUser.profileImageUrl, user.id, user.name,
                               "request", RequestMessage, now), notifWrite))
    {
      isLoading := true;
      errorMessage := "";
      requestId := "";
      if write.Ok? {
        requestId := db.Add(Requests, RequestDocFor(user, currentUser, now));
        status := Sent;
        var notifId := NotificationId(currentUser.id, user.id, "request");
        SaveNotification(notifId, currentUser.id, currentUser.name, currentUser.profileImageUrl,
                         user.id, user.name, "request", RequestMessage, notifWrite, now);
      } else {
        errorMessage := "❌ Request failed: " + write.reason;
      }
      isLoading := false;
    }

    /** The query-then-delete loop of accept, decline and cancel:
        `for doc in snapshot.documents { try await doc.reference.delete() }`
        over the requests from `from` to `to`, stopping at the first failure.
        Returns the error message it leaves, "" on success. */
    method DeleteRequests(from: string, to: string, query: Step, deleteErrors: map<string, string>, prefix: string)
      returns (err: string)
      modifies db
      ensures db.store == old(db.store).(requests := db.store.requests)
      ensures DeletePhase(old(db.store.requests), db.store.requests, from, to, query, deleteErrors, prefix, err)
    {
      if query.Failed? {
        return prefix + query.reason;
      }
      var ids := RequestsBetween(db.store.requests, from, to);
      ghost var before := db.store;
      var pending := ids;
      while pending != {}
        invariant pending <= ids
        invariant db.store == before.(requests := before.requests - (ids - pending))
        invariant forall id :: id in ids && id !in pending ==> id !in deleteErrors
        decreases |pending|
      {
        var id :| id in pending;
        if id in deleteErrors {
          return prefix + deleteErrors[id];
        }
        db.Delete(Requests, id);
        pending := pending - {id};
        assert db.store.requests == before.requests - (ids - pending);
      }
      return "";
    }

    /** The notification step of accept, decline and cancel. */
    method NotifyReply(currentUserId: string, other: string, currentRead: Step, otherRead: Step,
                       kind: string, message: string, notifWrite: Step, now: int)
      modifies db
      ensures db.store == old(db.store).(notifications :=
        NotifyAfterReply(old(db.store), currentUserId, other, currentRead, otherRead, kind, message, notifWrite, now))
    {
      var me := FetchUserInfo(db.store.users, currentUserId, currentRead);
      if me.Some? {
        var them := FetchUserInfo(db.store.users, other, otherRead);
        if them.Some? {
          var notifId := NotificationId(currentUserId, other, kind);
          SaveNotification(notifId, currentUserId, me.value.name, me.value.imageUrl, other, them.value.name,
                           kind, message, notifWrite, now);
        }
      }
    }

    /** `acceptRequest(currentUserId:from:)`: always adds a new chat, with no
        check for an existing one; then notifies; then deletes the pending
        requests from the sender. */
    method AcceptRequest(currentUserId: string, senderId: string, add: Step,
                         currentRead: Step, senderRead: Step, notifWrite: Step,
                         query: Step, deleteErrors: map<string, string>, now: int)
      returns (ghost chatId: string)
      modifies this, db
      ensures !isLoading && incomingRequests == old(incomingRequests)
      ensures add.Failed? ==>
        && db.store == old(db.store)
        && status == old(status)
        && errorMessage == AcceptFailed + add.reason
      ensures add.Ok? ==>
        && status == RequestStatus.Accepted
        && chatId !in old(db.store.chats)
        && db.store.chats == old(db.store.chats)[chatId := AcceptedChatDoc(currentUserId, senderId, now)]
        && db.store.notifications == NotifyAfterReply(old(db.store), currentUserId, senderId, currentRead, senderRead,
                                                      "accepted", AcceptedMessage, notifWrite, now)
        && DeletePhase(old(db.store.requests), db.store.requests, senderId, currentUserId, query, deleteErrors,
                       AcceptFailed, errorMessage)
        && db.store.users == old(db.store.users)
        && db.store.reports == old(db.store.reports)
        && db.store.messages == old(db.store.messages)
    {
      isLoading := true;
      errorMessage := "";
      chatId := "";
      if add.Failed? {
        errorMessage := AcceptFailed + add.reason;
      } else {
        chatId := db.Add(Chats, AcceptedChatDoc(currentUserId, senderId, now));
        status := RequestStatus.Accepted;
        NotifyReply(currentUserId, senderId, currentRead, senderRead, "accepted", AcceptedMessage, notifWrite, now);
        errorMessage := DeleteRequests(senderId, currentUserId, query, deleteErrors, AcceptFailed);
      }
      isLoading := false;
    }

    /** `declineRequest(currentUserId:from:)`: deletes the sender's pending
        requests; only when all deletes succeed does it reset the status and
        notify the sender. */
    method DeclineRequest(currentUserId: string, senderId: string, query: Step, deleteErrors: map<string, string>,
                          currentRead: Step, senderRead: Step, notifWrite: Step, now: int)
      modifies this, db
      ensures !isLoading && incomingRequests == old(incomingRequests)
      ensures DeletePhase(old(db.store.requests), db.store.requests, senderId, currentUserId, query, deleteErrors,
                          DeclineFailed, errorMessage)
      ensures errorMessage == "" ==>
        && status == NoRelation
        && db.store.notifications == NotifyAfterReply(old(db.store), currentUserId, senderId, currentRead, senderRead,
                                                      "declined", DeclinedMessage, notifWrite, now)
      ensures errorMessage != "" ==> status == old(status) && db.store.notifications == old(db.store.notifications)
      ensures db.store == old(db.store).(requests := db.store.requests, notifications := db.store.notifications)
    {
      isLoading := true;
      errorMessage := "";
      Reply(currentUserId, senderId, senderId, currentUserId, query, deleteErrors, currentRead, senderRead, notifWrite,
            DeclinedMessage, DeclineFailed, now);
      isLoading := false;
    }

    /** `cancelRequest(currentUserId:to:)`: deletes the current user's pending
        requests to the receiver; only when all deletes succeed does it reset
        the status and notify, under the same "declined" id a decline uses. */
    method CancelRequest(currentUserId: string, receiverId: string, query: Step, deleteErrors: map<string, string>,
                         currentRead: Step, receiverRead: Step, notifWrite: Step, now: int)
      modifies this, db
      ensures !isLoading && incomingRequests == old(incomingRequests)
      ensures DeletePhase(old(db.store.requests), db.store.requests, currentUserId, receiverId, query, deleteErrors,
                          CancelFailed, errorMessage)
      ensures errorMessage == "" ==>
        && status == NoRelation
        && db.store.notifications == NotifyAfterReply(old(db.store), currentUserId, receiverId, currentRead, receiverRead,
                                                      "declined", CancelledMessage, notifWrite, now)
      ensures errorMessage != "" ==> status == old(status) && db.store.notifications == old(db.store.notifications)
      ensures db.store == old(db.store).(requests := db.store.requests, notifications := db.store.notifications)
    {
      isLoading := true;
      errorMessage := "";
      Reply(currentUserId, receiverId, currentUserId, receiverId, query, deleteErrors, currentRead, receiverRead, notifWrite,
            CancelledMessage, CancelFailed, now);
      isLoading := false;
    }

    /** The common body of decline and cancel: delete the requests from `from`
        to `to`, then set the status and send a "declined" notification from
        `currentUserId` to `other`. */
    method Reply(currentUserId: string, other: string, from: string, to: string, query: Step,
                 deleteErrors: map<string, string>, currentRead: Step, otherRead: Step, notifWrite: Step,
                 message: string, prefix: string, now: int)
      requires prefix != ""
      modifies this, db
      ensures isLoading == old(isLoading) && incomingRequests == old(incomingRequests)
      ensures DeletePhase(old(db.store.requests), db.store.requests, from, to, query, deleteErrors, prefix, errorMessage)
      ensures errorMessage == "" ==>
        && status == NoRelation
        && db.store.notifications == NotifyAfterReply(old(db.store), currentUserId, other, currentRead, otherRead,
                                                      "declined", message, notifWrite, now)
      ensures errorMessage != "" ==> status == old(status) && db.store.notifications == old(db.store.notifications)
      ensures db.store == old(db.store).(requests := db.store.requests, notifications := db.store.notifications)
    {
      errorMessage := DeleteRequests(from, to, query, deleteErrors, prefix);
      if errorMessage == "" {
        status := NoRelation;
        NotifyReply(currentUserId, other, currentRead, otherRead, "declined", message, notifWrite, now);
      }
    }

    /** The snapshot handler of `listenForIncomingRequests(for:)`: a nil
        snapshot is ignored, otherwise the list becomes the decodable requests
        in snapshot order. */
    method OnIncomingRequests(snapshot: Option<seq<DocSnapshot>>)
      modifies this
      ensures snapshot.None? ==> incomingRequests == old(incomingRequests)
      ensures snapshot.Some? ==> incomingRequests == FilterMap(snapshot.value, RequestOf)
      ensures status == old(status) && isLoading == old(isLoading) && errorMessage == old(errorMessage)
    {
      if snapshot.Some? {
        incomingRequests := FilterMap(snapshot.value, RequestOf);
      }
    }
  }

  // ------------------------------------------------------------ properties

  /** Linked is symmetric: it does not matter who views whom. */
  lemma LinkedSymmetric(chats: map<string, Doc>, a: string, b: string)
    ensures Linked(chats, a, b) <==> Linked(chats, b, a)
  {
    assert LinkingChats(chats, a, b) == LinkingChats(chats, b, a);
  }

  /** After an accept, `checkStatus` resolves to accepted from either side,
      whatever the request queries return. */
  lemma AcceptedFromEitherSide(s: Store, chatId: string, currentUserId: string, senderId: string, now: int,
                               q1: Step, q2: Step, q3: Step, q4: Step)
    ensures var after := s.(chats := s.chats[chatId := AcceptedChatDoc(currentUserId, senderId, now)]);
      && StatusOf(after, currentUserId, senderId, Ok, q1, q2) == RequestStatus.Accepted
      && StatusOf(after, senderId, currentUserId, Ok, q3, q4) == RequestStatus.Accepted
  {
    var chats := s.chats[chatId := AcceptedChatDoc(currentUserId, senderId, now)];
    assert Participants(chats[chatId]) == [currentUserId, senderId];
    assert chatId in LinkingChats(chats, currentUserId, senderId);
    assert chatId in LinkingChats(chats, senderId, currentUserId);
  }

  /** Accept has no duplicate guard: two accepts of the same pair leave two
      more chats linking the pair. */
  lemma TwoAcceptsTwoChats(chats: map<string, Doc>, id1: string, id2: string, a: string, b: string, t1: int, t2: int)
    requires id1 !in chats && id2 !in chats && id1 != id2
    ensures var after := chats[id1 := AcceptedChatDoc(a, b, t1)][id2 := AcceptedChatDoc(a, b, t2)];
      |LinkingChats(after, a, b)| == |LinkingChats(chats, a, b)| + 2
  {
    var after := chats[id1 := AcceptedChatDoc(a, b, t1)][id2 := AcceptedChatDoc(a, b, t2)];
    assert Participants(after[id1]) == [a, b];
    assert Participants(after[id2]) == [a, b];
    assert LinkingChats(after, a, b) == LinkingChats(chats, a, b) + {id1, id2};
  }

  /** A sent request makes `checkStatus` resolve to sent for the sender and
      to received for the receiver, unless the pair is already linked by a
      chat (and, for the receiver, unless they have a request of their own
      pending to the sender). */
  lemma SentFromSenderReceivedFromReceiver(s: Store, requestId: string, user: UserModel, currentUser: UserModel, now: int)
    requires !Linked(s.chats, currentUser.id, user.id)
    ensures var after := s.(requests := s.requests[requestId := RequestDocFor(user, currentUser, now)]);
      && StatusOf(after, currentUser.id, user.id, Ok, Ok, Ok) == Sent
      && (!Pending(after.requests, user.id, currentUser.id) ==>
            StatusOf(after, user.id, currentUser.id, Ok, Ok, Ok) == Received)
  {
    var requests := s.requests[requestId := RequestDocFor(user, currentUser, now)];
    assert requestId in RequestsBetween(requests, currentUser.id, user.id);
    LinkedSymmetric(s.chats, currentUser.id, user.id);
  }

  /** `sendRequest` never checks for an earlier request: each send adds one
      more request between the pair. */
  lemma SendAddsOneRequest(requests: map<string, Doc>, requestId: string, user: UserModel, currentUser: UserModel, now: int)
    requires requestId !in requests
    ensures |RequestsBetween(requests[requestId := RequestDocFor(user, currentUser, now)], currentUser.id, user.id)|
         == |RequestsBetween(requests, currentUser.id, user.id)| + 1
  {
    var doc := RequestDocFor(user, currentUser, now);
    var after := requests[requestId := doc];
    assert IsRequestFrom(doc, currentUser.id, user.id) by {
      SentRequestDecodes(requestId, user, currentUser, now);
    }
    assert RequestsBetween(after, currentUser.id, user.id) == RequestsBetween(requests, currentUser.id, user.id) + {requestId};
  }

  /** A complete delete phase leaves no request from `from` to `to` and does
      not touch the requests in the other direction. */
  lemma DeleteOnlyOneDirection(requests: map<string, Doc>, from: string, to: string)
    ensures var after := requests - RequestsBetween(requests, from, to);
      && !Pending(after, from, to)
      && (from != to ==> RequestsBetween(after, to, from) == RequestsBetween(requests, to, from))
  {
    var after := requests - RequestsBetween(requests, from, to);
    assert RequestsBetween(after, from, to) == {};
    if from != to {
      forall id | id in RequestsBetween(requests, to, from) ensures id in RequestsBetween(after, to, from) {
        assert id !in RequestsBetween(requests, from, to);
      }
    }
  }

  /** A cancel by `a` of a request to `b` and a decline by `b` of a request
      from `a` write the same notification document: the later replaces the
      earlier. */
  lemma CancelAndDeclineShareId(a: string, b: string)
    ensures NotificationId(a, b, "declined") == NotificationId(b, a, "declined")
  {
  }

  /** The request `sendRequest` writes decodes as a request from the sender to
      the receiver, with the sender's profile and a nil image read back as "". */
  lemma SentRequestDecodes(id: string, user: UserModel, currentUser: UserModel, now: int)
    ensures IsRequestFrom(RequestDocFor(user, currentUser, now), currentUser.id, user.id)
    ensures DecodeRequest(id, RequestDocFor(user, currentUser, now)) ==
      Some(RequestModel(id, currentUser.id, user.id, currentUser.name, user.name, currentUser.age,
                        currentUser.location, currentUser.bio, Some(currentUser.profileImageUrl.GetOr("")), now))
  {
  }

  /** The chat `acceptRequest` adds decodes with the two participants, an
      empty last message and no names. */
  lemma AcceptedChatDecodes(id: string, currentUserId: string, senderId: string, now: int, decodedAt: int)
    ensures DecodeChat(id, AcceptedChatDoc(currentUserId, senderId, now), decodedAt) ==
      ChatModel(id, "", [currentUserId, senderId], "", "", "", "", "", "", now, [])
  {
  }

  /** A saved notification decodes exactly when its type is one of the three
      known ones, and then it is unresolved (nil status). */
  lemma SavedNotificationDecodes(id: string, senderId: string, senderName: string, senderImageUrl: Option<string>,
                                 receiverId: string, receiverName: string, kind: string, message: string, now: int)
    ensures var r := DecodeNotification(id, NotificationDoc(senderId, senderName, senderImageUrl, receiverId, receiverName, kind, message, now));
      && (r.Some? <==> ParseType(kind).Some?)
      && (r.Some? ==> r.value == NotificationModel(id, senderId, receiverId, senderName, receiverName,
                                                   Some(senderImageUrl.GetOr("")), ParseType(kind).value, message, now, None))
  {
  }
}
