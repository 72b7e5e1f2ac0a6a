/** The notification screen, `Views/NotificationView.swift`: which card each
    notification gets, the chat key of "Say Hi", and the `isProcessing`
    bookkeeping around the two buttons. */
module NotificationScreen {
  import opened Wrappers
  import opened Documents
  import opened Strings
  import opened ChatModels
  import opened Backend
  import opened NotificationFeed
  import opened RequestFlow

  const DeclinedStatus: string := "declined"

  /** `generateChatId(_:_:)`: the two uids sorted and joined with "_", so
      the uid that sorts first comes first whichever order they are given in. */
  function GenerateChatId(uid1: string, uid2: string): (chatId: string)
    ensures LexLeq(uid1, uid2) ==> chatId == uid1 + "_" + uid2
    ensures !LexLeq(uid1, uid2) ==> chatId == uid2 + "_" + uid1
  {
    SortPair(uid1, uid2);
    SortedJoin([uid1, uid2], "_")
  }

  /** Sorting two strings puts the one that sorts first in front. */
  lemma SortPair(a: string, b: string)
    ensures LexLeq(a, b) ==> SortedJoin([a, b], "_") == a + "_" + b
    ensures !LexLeq(a, b) ==> SortedJoin([a, b], "_") == b + "_" + a
  {
    assert [a, b][1..] == [b];
    assert [b][1..] == [];
    assert Sort([b]) == [b];
    assert Sort([a, b]) == Insert(a, [b]);
    if LexLeq(a, b) {
      assert Insert(a, [b]) == [a, b];
      assert Join([a, b], "_") == a + "_" + Join([b], "_");
    } else {
      assert Insert(a, [b]) == [b] + Insert(a, []) == [b, a];
      assert [b, a][1..] == [a];
      assert Join([b, a], "_") == b + "_" + Join([a], "_");
    }
  }

  /** The right-hand side of a pending card. */
  datatype Controls = Spinner | SayHiAndDecline | NoControls

  /** The card a notification gets: pending cards while `status` is nil,
      resolved cards otherwise. */
  datatype Card = PendingCard(controls: Controls) | ResolvedCard(status: string)

  /** The card dispatch of `body` and `notificationCard(for:)`; `processing`
      is `isProcessing[notif.id] == true`. */
  function CardFor(n: NotificationModel, processing: bool): (card: Card)
    ensures card.ResolvedCard? <==> n.status.Some?
    ensures card.ResolvedCard? ==> n.status == Some(card.status)
    ensures card == PendingCard(Spinner) <==> n.status.None? && processing
    ensures card == PendingCard(NoControls) <==> n.status.None? && !processing && n.kind != Request
  {
    if n.status.None? then
      PendingCard(if processing then Spinner else if n.kind == Request then SayHiAndDecline else NoControls)
    else ResolvedCard(n.status.value)
  }

  /** `isProcessing[id] == true`, with a missing entry read as false. */
  function Processing(isProcessing: map<string, bool>, id: string): bool {
    id in isProcessing && isProcessing[id]
  }

  /** What "Say Hi" does to the store, from `before` to `after`: a chat is
      created, if at all, only under `chatId`; no request or user document
      changes; no notification is added or removed; and when the final
      status update goes through, the notification reads "accepted". */
  ghost predicate GreetingEffect(before: Store, after: Store, chatId: string, notificationId: string, markWrite: Step) {
    && (forall c :: c in after.chats ==> c in before.chats || c == chatId)
    && after.requests == before.requests && after.users == before.users
    && after.notifications.Keys == before.notifications.Keys
    && (markWrite.Ok? && notificationId in before.notifications ==>
          notificationId in after.notifications &&
          GetStr(after.notifications[notificationId], "status") == Some(AcceptedStatus))
  }

  class NotificationScreenState {
    var isProcessing: map<string, bool>
    const vm: NotificationViewModel

    constructor(vm: NotificationViewModel)
      ensures this.vm == vm && isProcessing == map[]
    {
      this.vm := vm;
      isProcessing := map[];
    }

    /** The "Say Hi" button: marks the card busy, greets the sender in the
        chat keyed by `generateChatId`, marks the notification "accepted",
        and marks the card idle again. `sessionUid` is `session.uid`;
        `authUid` is the Auth uid `sendHiMessage` reads. */
    method SayHi(n: NotificationModel, sessionUid: string, authUid: Option<string>,
                 existsRead: Step, senderRead: Step, receiverRead: Step,
                 chatWrite: Step, messageWrite: Step, statusWrite: Step, markWrite: Step, now: int)
      returns (ghost messageId: string)
      modifies this, vm.db
      ensures isProcessing == old(isProcessing)[n.id := false]
      ensures vm.db.store ==
        Responded(AfterHi(old(vm.db.store), authUid, n.senderId, GenerateChatId(sessionUid, n.senderId), n.id,
                          existsRead, senderRead, receiverRead, chatWrite, messageWrite, statusWrite, now, messageId),
                  n.id, AcceptedStatus, markWrite)
    {
      isProcessing := isProcessing[n.id := true];
      ghost var busy := isProcessing;
      var chatId := GenerateChatId(sessionUid, n.senderId);
      messageId := vm.SendHiMessage(authUid, n.senderId, chatId, n.id, existsRead, senderRead, receiverRead,
                                    chatWrite, messageWrite, statusWrite, now);
      vm.MarkAsResponded(n.id, AcceptedStatus, markWrite);
      assert isProcessing == busy;
      ReplacedTwice(old(isProcessing), n.id, true, false);
      isProcessing := isProcessing[n.id := false];
    }

    /** The "Decline" button: only the notification's status changes, to
        "declined"; no request document is deleted. */
    method Decline(n: NotificationModel, write: Step)
      modifies this, vm.db
      ensures isProcessing == old(isProcessing)[n.id := false]
      ensures vm.db.store == Responded(old(vm.db.store), n.id, DeclinedStatus, write)
    {
      isProcessing := isProcessing[n.id := true];
      ghost var busy := isProcessing;
      vm.MarkAsResponded(n.id, DeclinedStatus, write);
      assert isProcessing == busy;
      ReplacedTwice(old(isProcessing), n.id, true, false);
      isProcessing := isProcessing[n.id := false];
    }
  }

  /** Setting a key twice keeps only the second value. */
  lemma ReplacedTwice(m: map<string, bool>, k: string, a: bool, b: bool)
    ensures m[k := a][k := b] == m[k := b]
  {
  }

  // ------------------------------------------------------------ properties

  /** Both users compute the same chat key for their pair. */
  lemma GenerateChatIdSymmetric(a: string, b: string)
    ensures GenerateChatId(a, b) == GenerateChatId(b, a)
  {
    assert multiset([a, b]) == multiset([b, a]);
    SortedJoinIgnoresOrder([a, b], [b, a], "_");
  }

  /** The buttons show exactly for an unresolved request that is not being
      processed; while it is processed a spinner stands in their place. */
  lemma ButtonsOnlyForOpenRequests(n: NotificationModel, processing: bool)
    ensures CardFor(n, processing) == PendingCard(SayHiAndDecline) <==> n.status.None? && n.kind == Request && !processing
    ensures n.status.None? && processing ==> CardFor(n, processing) == PendingCard(Spinner)
    ensures CardFor(n, processing).ResolvedCard? <==> n.status.Some?
  {
  }

  /** "Say Hi" creates a chat, if at all, only under the generated key,
      touches no request or user, adds or removes no notification, and
      leaves the notification "accepted" when the last update goes through. */
  lemma SayHiEffect(s: Store, n: NotificationModel, sessionUid: string, authUid: Option<string>,
                    existsRead: Step, senderRead: Step, receiverRead: Step,
                    chatWrite: Step, messageWrite: Step, statusWrite: Step, markWrite: Step, now: int, messageId: string)
    ensures var chatId := GenerateChatId(sessionUid, n.senderId);
      GreetingEffect(s, Responded(AfterHi(s, authUid, n.senderId, chatId, n.id, existsRead, senderRead, receiverRead,
                                          chatWrite, messageWrite, statusWrite, now, messageId),
                                  n.id, AcceptedStatus, markWrite),
                     chatId, n.id, markWrite)
  {
  }

  /** "Say Hi" looks for its chat only under the generated id, but
      `acceptRequest` stores the chat it adds under an auto-generated id. So
      after an accept, a "Say Hi" whose writes go through adds a second chat
      linking the same two users. */
  lemma SayHiAfterAcceptAddsSecondChat(s: Store, a: string, b: string, acceptId: string,
                                       notificationId: string, now: int, messageId: string)
    requires acceptId in LinkingChats(s.chats, a, b)
    requires GenerateChatId(a, b) !in s.chats
    ensures var after := AfterHi(s, Some(a), b, GenerateChatId(a, b), notificationId, Ok, Ok, Ok, Ok, Ok, Ok, now, messageId);
      LinkingChats(after.chats, a, b) == LinkingChats(s.chats, a, b) + {GenerateChatId(a, b)}
    ensures var after := AfterHi(s, Some(a), b, GenerateChatId(a, b), notificationId, Ok, Ok, Ok, Ok, Ok, Ok, now, messageId);
      |LinkingChats(after.chats, a, b)| >= 2
  {
    var chatId := GenerateChatId(a, b);
    var after := AfterHi(s, Some(a), b, chatId, notificationId, Ok, Ok, Ok, Ok, Ok, Ok, now, messageId);
    var sender := FetchUserInfo(s.users, a, Ok);
    var receiver := FetchUserInfo(s.users, b, Ok);
    assert sender.Some? && receiver.Some?;
    var doc := HiChatDoc(chatId, a, b, sender.value, receiver.value, now);
    assert after == Greeted(s, a, b, chatId, notificationId, true, sender.value, receiver.value, Ok, Ok, Ok, now, messageId);
    assert after.chats == s.chats[chatId := doc];
    assert Participants(doc) == [a, b];
    ChatLinkingBoth(s.chats, chatId, doc, a, b);
    assert {acceptId, chatId} <= LinkingChats(after.chats, a, b);
    assert |{acceptId, chatId}| == 2;
    SubsetNoLarger({acceptId, chatId}, LinkingChats(after.chats, a, b));
  }

  lemma ChatLinkingBoth(chats: map<string, Doc>, id: string, doc: Doc, a: string, b: string)
    requires a in Participants(doc) && b in Participants(doc)
    ensures LinkingChats(chats[id := doc], a, b) == LinkingChats(chats, a, b) + {id}
  {
  }

  lemma SubsetNoLarger(small: set<string>, big: set<string>)
    requires small <= big
    ensures |small| <= |big|
  {
    assert big == small + (big - small);
  }

  /** Once a status is written, the card of the re-decoded notification is
      resolved and carries that status. */
  lemma RespondedCardResolved(id: string, d: Doc, status: string, processing: bool)
    requires DecodeNotification(id, d).Some?
    ensures var n := DecodeNotification(id, d + map["status" := Str(status)]);
      n.Some? && CardFor(n.value, processing) == ResolvedCard(status)
  {
    MarkedNotificationDecodes(id, d, status);
  }
}
