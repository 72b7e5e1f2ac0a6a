# Textsy core, modelled in Dafny

Textsy is a SwiftUI chat app backed by Firebase. Users create a profile. They
browse other users on the Explore screen and send chat requests. The other
side accepts or declines each request, either from the profile screen or from
the notification feed with "Say Hi". After that, the two users chat. Users
can block, unblock and report one another. A user who gathers enough open
reports is flagged as suspended.

This project models the app's view models, its model decoders and encoders,
and the decisions some screens make, in terms of one in-memory Firestore:

- `Backend` holds every collection as a map from document id to document.
  Each chat's `messages` sub-collection is a map as well.
  - `Backend.Database` is the shared handle. Its methods are the SDK calls
    the app makes: `addDocument`, `setData`, `updateData` and `delete`.
  - `updateData` on a missing document fails, as it does in Firestore.
  - Every call that can throw takes a `Step` argument, `Ok` or
    `Failed(reason)`, which says whether it reached the server.
  - Generated document ids are fresh ids that `NewId` picks.
- `Documents` (`Doc`, `Value`, the typed getters and `QueryResult`) models
  `[String: Any]` and the `as? T` casts the decoders make.
- `ChatModels` and `UserModels` model `Models/ChatModel.swift` and
  `Models/UserModel.swift`: failable decoders, encoders and round trips.
- Each view model is a class with the Swift fields it updates. Each of its
  methods states its whole new state in terms of the old state and the
  outcome of every SDK call.
- Screens: the notification cards and the "Say Hi"/"Decline" buttons, the
  home search, the profile gate (`UserProfileWrapperView.fetchUser`), the
  session and the routers.

The proofs cover these properties:

- decode/encode round trips;
- `checkStatus` resolving the same way from either side;
- one new request per send, because there is no duplicate guard;
- symmetric chat and notification ids;
- blocking being idempotent and undone by unblocking;
- the block check failing closed;
- the suspension flag following the report count;
- the chat feed and cache round trip;
- search results being exactly the matching chats;
- the gates before a profile is shown.

Two screens do not do what their own code evidently means; both are under
"## Findings".

Paths below are relative to the repository root.

## Model

| member | source | states |
|---|---|---|
| Backend.NewId | Textsy/ViewModels/RequestViewModel.swift:63 | stands for Firestore's auto-id behind every `addDocument`, cited here at one call site: a generated document id is not already taken in its collection |
| Backend.Database.constructor | Textsy/ViewModels/RequestViewModel.swift:63 | stands for the `Firestore.firestore()` handle every view model holds, cited here at one call site: the handle starts with the given store |
| Backend.Database.Add | Textsy/ViewModels/RequestViewModel.swift:63 | `addDocument` writes the data under a fresh id and changes nothing else |
| Backend.Database.SetData | Textsy/ViewModels/RequestViewModel.swift:222 | `setData` creates or replaces the whole document and changes nothing else |
| Backend.Database.Update | Textsy/ViewModels/Access/ReportBlockViewModel.swift:28-30 | `updateData` merges the fields into an existing document; on a missing document it fails and changes nothing |
| Backend.Database.TryUpdate | Textsy/ViewModels/NotificationViewModel.swift:72-76 | an update that throws in transport changes nothing; otherwise it behaves as `updateData`, and it reports an error exactly when nothing was written |
| Backend.Database.Delete | Textsy/ViewModels/NotificationViewModel.swift:79 | `delete` removes the document; deleting a missing one changes nothing |
| Backend.Database.AddMessage | Textsy/ViewModels/Chat/ChatSessionViewModel.swift:51-54 | a message is added under a fresh id in the chat's `messages` sub-collection, and no other chat changes |
| Backend.Store.With | Textsy/ViewModels/RequestViewModel.swift:63 | stands for a write to one collection through the SDK handle, cited here at one call site: replacing one collection leaves every other collection and all messages alone |
| Backend.Store.PutMessage | Textsy/ViewModels/Chat/ChatSessionViewModel.swift:51-54 | writing a message touches only that chat's sub-collection |
| Backend.Updated | Textsy/ViewModels/NotificationViewModel.swift:72-76 | an update never adds or removes a document |
| Backend.UpdateError | Textsy/ViewModels/NotificationViewModel.swift:72-76 | an update throws exactly when the call fails or the document is missing |
| Backend.FetchUserInfo | Textsy/ViewModels/NotificationViewModel.swift:82-93 | nil only when the read throws; a missing document or name gives name "" and no image; otherwise the stored name and image |
| Backend.BlockedOf | Textsy/ViewModels/Access/ReportBlockViewModel.swift:57-58 | a user without a document blocks nobody |
| Backend.ArrayUnion | Textsy/ViewModels/Access/ReportBlockViewModel.swift:29 | `arrayUnion([x])` leaves x present and every other entry as before, and appends x only when it is absent |
| Backend.ArrayRemove | Textsy/ViewModels/Access/ReportBlockViewModel.swift:43 | `arrayRemove([x])` leaves x absent and every other entry present |
| Backend.ArrayUnionIdempotent | Textsy/ViewModels/Access/ReportBlockViewModel.swift:29 | adding the same id twice is the same as adding it once |
| Backend.UnionThenRemove | Textsy/ViewModels/Access/ReportBlockViewModel.swift:29-43 | removing an id after adding it equals removing it from the original list |
| Backend.ArrayRemoveAppend | Textsy/ViewModels/Access/ReportBlockViewModel.swift:43 | removing x from a list that ends in x equals removing it from the list without that end |
| Strings.LexLeqTotal | Textsy/ViewModels/RequestViewModel.swift:65 | the string order `sorted()` uses is total |
| Strings.LexLeqAntisymmetric | Textsy/ViewModels/RequestViewModel.swift:65 | that order is antisymmetric |
| Strings.LexLeqTransitive | Textsy/ViewModels/RequestViewModel.swift:65 | that order is transitive |
| Strings.SortSorted | Textsy/ViewModels/RequestViewModel.swift:65 | `sorted()` yields a sorted permutation of its input |
| Strings.SortedJoinIgnoresOrder | Textsy/ViewModels/RequestViewModel.swift:65 | sorting then joining gives the same id for any ordering of the same strings |
| Seqs.FilterMap | Textsy/ViewModels/Chat/ChatViewModel.swift:43 | `compactMap` never yields more elements than it was given |
| Seqs.FilterMapMembers | Textsy/ViewModels/Chat/ChatViewModel.swift:43 | an element is in a `compactMap` result exactly when some input maps to it |
| Seqs.FilterMapKeepsAll | Textsy/ViewModels/Chat/ChatViewModel.swift:43 | when every input decodes, `compactMap` keeps one result per input, in order |
| Seqs.FilterMapOrdered | Textsy/ViewModels/NotificationViewModel.swift:20-24 | `compactMap` keeps the order its inputs were in |
| Seqs.FilterMembers | Textsy/HomeView.swift:145-150 | an element is in a `filter` result exactly when it is in the input and passes the test |
| Seqs.FilterIsSubsequence | Textsy/HomeView.swift:145-150 | `filter` keeps input order |
| ChatModels.DecodeChat | Textsy/Models/ChatModel.swift:20-32 | `ChatModel.init` never fails and keeps the document id; each of the seven strings, the two lists and `timeStamp` is the stored value when present with the right type, and otherwise "", [] or the decoding time |
| ChatModels.DecodeMessage | Textsy/Models/ChatModel.swift:47-68 | `MessageModel.init?` succeeds exactly when the six required fields have the right types, and then carries each of them; a stored `deletedFor` list is carried, and a missing or mistyped one is [] |
| ChatModels.MessageToDoc | Textsy/Models/ChatModel.swift:73-83 | `asDictionary` writes exactly the seven message keys |
| ChatModels.MessageRoundTrip | Textsy/Models/ChatModel.swift:47-83 | decoding an encoded message gives the message back |
| ChatModels.ParseType | Textsy/Models/ChatModel.swift:100-102 | `NotificationType(rawValue:)` accepts exactly "request", "accepted" and "declined", as their raw values |
| ChatModels.ParseRawType | Textsy/Models/ChatModel.swift:100-102 | parsing a type's raw value gives that type |
| ChatModels.DecodeNotification | Textsy/Models/ChatModel.swift:104-128 | `NotificationModel.init?` succeeds exactly when the required fields are present and the type parses; on success it carries the id, the sender and receiver ids and names, the message, the timestamp and the optional status and image URL (absent stays absent), and reads the kind from `type` |
| ChatModels.NotificationToDoc | Textsy/Models/ChatModel.swift:130-142 | `asDictionary` writes exactly the nine notification keys |
| ChatModels.NotificationReencoded | Textsy/Models/ChatModel.swift:104-142 | decoding an encoded notification gives it back, with a nil image as "" and a nil status as "none" |
| ChatModels.NotificationRoundTrip | Textsy/Models/ChatModel.swift:104-142 | with image and status set, the round trip is exact |
| ChatModels.UnresolvedNotificationNotRoundTripped | Textsy/Models/ChatModel.swift:140 | an unresolved notification comes back as resolved with status "none" |
| ChatModels.DecodeRequest | Textsy/Models/ChatModel.swift:159-183 | `RequestModel.init?` succeeds exactly when the required fields have the right types, and then carries each of them, with the image optional |
| ChatModels.RequestToDoc | Textsy/Models/ChatModel.swift:185-197 | `asDictionary` writes exactly the nine request keys |
| ChatModels.RequestReencoded | Textsy/Models/ChatModel.swift:159-197 | decoding an encoded request gives it back, with a nil image as "" |
| ChatModels.RequestRoundTrip | Textsy/Models/ChatModel.swift:159-197 | with an image set, the round trip is exact |
| ChatModels.DecodeReport | Textsy/Models/ChatModel.swift:210-220 | `ReportModel.init` never fails, keeps the id, reads `action` as true only for a stored true, carries `otherReason` and `feedback` as optional, carries `reporterId`, `reportedId` and `reason` when they are strings and leaves them "" otherwise, and dates the report `now` when no timestamp is stored |
| ChatModels.ReportToDoc | Textsy/Models/ChatModel.swift:221-231 | `toDict` writes exactly the seven report keys |
| ChatModels.ReportReencoded | Textsy/Models/ChatModel.swift:210-231 | decoding an encoded report gives it back, with nil optional texts as "" |
| UserModels.DecodeUser | Textsy/Models/UserModel.swift:17-33 | `UserModel.init?` succeeds exactly when name, age, location and bio have the right types, and then carries them and the optional image |
| UserModels.UserToDoc | Textsy/Models/UserModel.swift:47-55 | `asDictionary` writes exactly the five profile keys |
| UserModels.UserReencoded | Textsy/Models/UserModel.swift:17-55 | decoding an encoded user gives it back, with a nil image as "" |
| UserModels.UserRoundTrip | Textsy/Models/UserModel.swift:17-55 | with an image set, the round trip is exact |
| UserModels.DecodeUserIgnoresOtherFields | Textsy/Models/UserModel.swift:17-33 | extra fields such as `blocked` do not change the decoded user |
| RequestFlow.LinkingChats | Textsy/ViewModels/RequestViewModel.swift:22-29 | only stored chats can link two users |
| RequestFlow.RequestsBetween | Textsy/ViewModels/RequestViewModel.swift:32-35 | the request query returns only stored requests |
| RequestFlow.ResolveStatus | Textsy/ViewModels/RequestViewModel.swift:19-47 | accepted beats sent, which beats received, which beats none; each is chosen exactly in its case |
| RequestFlow.StatusOf | Textsy/ViewModels/RequestViewModel.swift:19-47 | `checkStatus` settles on accepted exactly when its chat query went through and found a chat of both users; sent and received only with a pending request in that direction; all three queries failing give no relation |
| RequestFlow.RequestViewModel.constructor | Textsy/ViewModels/RequestViewModel.swift:12-15 | the view model starts with status none, not loading, no error and no requests |
| RequestFlow.RequestViewModel.CheckStatus | Textsy/ViewModels/RequestViewModel.swift:19-47 | the status is the one the three queries decide; a failed chat query leaves its message and falls through to the request queries |
| RequestFlow.RequestViewModel.SaveNotification | Textsy/ViewModels/RequestViewModel.swift:202-224 | the notification document is replaced under the given id; a failure is swallowed |
| RequestFlow.RequestViewModel.SendRequest | Textsy/ViewModels/RequestViewModel.swift:49-80 | on success, one new request is added under a fresh id, the status is sent and the request notification is saved; on failure nothing is written and the error is shown |
| RequestFlow.RequestViewModel.DeleteRequests | Textsy/ViewModels/RequestViewModel.swift:109-113 | only requests from `from` to `to` are deleted; a failed query deletes none; a failed delete stops the loop with its message |
| RequestFlow.DeletePhaseReportsIncomplete | Textsy/ViewModels/RequestViewModel.swift:109-113 | the query-then-delete loop never adds or alters a request, and leaves no error message exactly when the query went through and every request in that direction is gone |
| RequestFlow.RequestViewModel.NotifyReply | Textsy/ViewModels/RequestViewModel.swift:129-142 | the reply notification is saved only when both user reads succeed |
| RequestFlow.RequestViewModel.AcceptRequest | Textsy/ViewModels/RequestViewModel.swift:82-118 | on success a new chat is always added and the status is accepted, before the notification and the delete phase; a failed add writes nothing |
| RequestFlow.RequestViewModel.DeclineRequest | Textsy/ViewModels/RequestViewModel.swift:120-147 | the sender's requests go through the delete phase; status none and the notification follow only when it succeeded |
| RequestFlow.RequestViewModel.CancelRequest | Textsy/ViewModels/RequestViewModel.swift:149-176 | the current user's own requests go through the delete phase; status none and the "declined" notification follow only when it succeeded |
| RequestFlow.RequestViewModel.Reply | Textsy/ViewModels/RequestViewModel.swift:120-176 | the shared shape of decline and cancel: delete phase, then status and notification only on success |
| RequestFlow.RequestViewModel.OnIncomingRequests | Textsy/ViewModels/RequestViewModel.swift:178-188 | a snapshot replaces the list with its decodable requests, in order; a nil snapshot keeps it |
| RequestFlow.LinkedSymmetric | Textsy/ViewModels/RequestViewModel.swift:22-29 | two users are linked by a chat regardless of who looks |
| RequestFlow.AcceptedFromEitherSide | Textsy/ViewModels/RequestViewModel.swift:19-29 | after an accept, `checkStatus` resolves to accepted for both users |
| RequestFlow.TwoAcceptsTwoChats | Textsy/ViewModels/RequestViewModel.swift:84-93 | two accepts of the same pair leave two chats linking them |
| RequestFlow.SentFromSenderReceivedFromReceiver | Textsy/ViewModels/RequestViewModel.swift:19-47 | after a send, the sender sees sent and the receiver sees received |
| RequestFlow.SendAddsOneRequest | Textsy/ViewModels/RequestViewModel.swift:49-63 | every send adds exactly one more request from the sender to the receiver |
| RequestFlow.DeleteOnlyOneDirection | Textsy/ViewModels/RequestViewModel.swift:109-113 | a complete delete phase leaves no request in that direction and every request in the other |
| RequestFlow.NotificationId | Textsy/ViewModels/RequestViewModel.swift:65 | the sorted, "_"-joined id is the same whichever of the two users is listed first, so it does not depend on which user acts |
| RequestFlow.CancelAndDeclineShareId | Textsy/ViewModels/RequestViewModel.swift:131-160 | a cancel and a decline by the other side write the same notification id |
| RequestFlow.SentRequestDecodes | Textsy/ViewModels/RequestViewModel.swift:51-61 | the request written decodes as a request from the sender with the sender's profile |
| RequestFlow.AcceptedChatDecodes | Textsy/ViewModels/RequestViewModel.swift:84-91 | the chat written decodes with the two participants and an empty last message |
| RequestFlow.SavedNotificationDecodes | Textsy/ViewModels/RequestViewModel.swift:202-224 | a saved notification decodes exactly when its type parses; it is unresolved and carries the ids written |
| NotificationFeed.AfterHi | Textsy/ViewModels/NotificationViewModel.swift:29-70 | the greeting adds at most the one chat, touches no user, request or report, and adds or removes no notification |
| NotificationFeed.NotificationViewModel.constructor | Textsy/ViewModels/NotificationViewModel.swift:8-12 | the feed starts empty |
| NotificationFeed.NotificationViewModel.OnNotificationsSnapshot | Textsy/ViewModels/NotificationViewModel.swift:14-26 | a snapshot replaces the feed with its decodable notifications; a nil snapshot empties it |
| NotificationFeed.NotificationViewModel.SendHiMessage | Textsy/ViewModels/NotificationViewModel.swift:29-70 | the store becomes `AfterHi`: nothing without a signed-in user or when a user read fails; otherwise an optional chat, the greeting under a fresh id, and the status update |
| NotificationFeed.NotificationViewModel.WriteGreeting | Textsy/ViewModels/NotificationViewModel.swift:37-68 | once both users are read: the chat only when known missing and its write succeeds, the greeting under a fresh id, and the "accepted" status, each only if its own call goes through |
| NotificationFeed.NotificationViewModel.MarkAsResponded | Textsy/ViewModels/NotificationViewModel.swift:72-76 | only the notification's status changes, and only when the update goes through |
| NotificationFeed.NotificationViewModel.DeleteNotification | Textsy/ViewModels/NotificationViewModel.swift:78-80 | the notification is removed when the call goes through; otherwise nothing changes |
| NotificationFeed.NotificationViewModel.SendResponseNotification | Textsy/ViewModels/NotificationViewModel.swift:94-113 | a response notification is added under a fresh id on success; otherwise nothing changes |
| NotificationFeed.FeedInvolvesUserNewestFirst | Textsy/ViewModels/NotificationViewModel.swift:14-26 | the feed lists only notifications involving the user, newest first |
| NotificationFeed.HiMessageDecodes | Textsy/ViewModels/NotificationViewModel.swift:37-44 | the greeting message decodes with the two users and the greeting text |
| NotificationFeed.HiChatShowsGreeting | Textsy/ViewModels/NotificationViewModel.swift:49-60 | a chat created by "Say Hi" decodes with both participants and the greeting as last message |
| NotificationFeed.MarkedNotificationDecodes | Textsy/ViewModels/NotificationViewModel.swift:72-76 | a notification whose status was written still decodes, now resolved with that status |
| NotificationFeed.ResponseNotificationDecodes | Textsy/ViewModels/NotificationViewModel.swift:94-113 | a response notification decodes exactly when its type parses, with the "accepted"/"declined" message |
| NotificationFeed.ResponseMessage | Textsy/ViewModels/NotificationViewModel.swift:104 | the message starts with the sender's name, and reads " accepted your chat request" exactly for the type "accepted", " declined your chat request" for any other type |
| ChatList.DeviceCache.constructor | Textsy/ViewModels/Chat/ChatViewModel.swift:55-74 | the device cache starts with the given entries |
| ChatList.CachedChats | Textsy/ViewModels/Chat/ChatViewModel.swift:65-74 | a cache read yields chats exactly when the key holds decodable data |
| ChatList.ChatViewModel.constructor | Textsy/ViewModels/Chat/ChatViewModel.swift:10-14 | no chats, no error and no listener |
| ChatList.ChatViewModel.LoadCache | Textsy/ViewModels/Chat/ChatViewModel.swift:65-74 | the cached chats replace the list when there are any; otherwise the list is kept |
| ChatList.ChatViewModel.SaveCache | Textsy/ViewModels/Chat/ChatViewModel.swift:55-62 | the list is stored under the cache key, and no other key changes |
| ChatList.ChatViewModel.ListenToChats | Textsy/ViewModels/Chat/ChatViewModel.swift:17-30 | the cache is shown first; the old listener is removed and exactly one new listener is live |
| ChatList.ChatViewModel.OnChatsSnapshot | Textsy/ViewModels/Chat/ChatViewModel.swift:30-49 | a removed listener's events change nothing; an error or nil snapshot sets its message; a snapshot replaces the list with the decoded chats and caches it |
| ChatList.ChatViewModel.Deinit | Textsy/ViewModels/Chat/ChatViewModel.swift:52 | no listener stays live |
| ChatList.DecodeChatsOnePerDocument | Textsy/ViewModels/Chat/ChatViewModel.swift:43 | every chat document yields exactly one chat, in query order |
| ChatList.DecodeChats | Textsy/ViewModels/Chat/ChatViewModel.swift:43 | `compactMap` over `ChatModel.init` drops nothing: one chat per document, carrying that document's id |
| ChatList.ChatsWithinPageSize | Textsy/ViewModels/Chat/ChatViewModel.swift:29-43 | the list never holds more than a page of chats |
| ChatList.CacheRoundTrip | Textsy/ViewModels/Chat/ChatViewModel.swift:55-74 | what the cache saves is what it loads next time |
| ChatSession.ChatSessionViewModel.constructor | Textsy/ViewModels/Chat/ChatSessionViewModel.swift:15-17 | no messages, not loading and no error |
| ChatSession.ChatSessionViewModel.FetchMessages | Textsy/ViewModels/Chat/ChatSessionViewModel.swift:22-39 | on success the list becomes the decodable messages in query order; on failure it is kept and the error is shown; loading ends either way |
| ChatSession.ChatSessionViewModel.SendMessage | Textsy/ViewModels/Chat/ChatSessionViewModel.swift:41-58 | nothing without a signed-in user; otherwise one message is added under a fresh id, or the error is shown |
| ChatSession.ChatSessionViewModel.CreateChatIfNotExists | Textsy/ViewModels/Chat/ChatSessionViewModel.swift:62-77 | the chat is written only when it is known not to exist and the write succeeds |
| ChatSession.FetchedMessagesInTimeOrder | Textsy/ViewModels/Chat/ChatSessionViewModel.swift:26-33 | the fetched messages are oldest first, and each comes from a fetched document |
| ChatSession.SentMessageNotDecodable | Textsy/ViewModels/Chat/ChatSessionViewModel.swift:44-48 | the document `sendMessage` writes lacks fields `MessageModel.init?` requires, so it never decodes |
| ChatSession.SentMessagesNeverFetched | Textsy/ViewModels/Chat/ChatSessionViewModel.swift:26-33 | a message written by `sendMessage` never appears in the fetched list |
| ChatSession.CreatedChatDecodes | Textsy/ViewModels/Chat/ChatSessionViewModel.swift:67-75 | the created chat decodes with both participants and the welcome text |
| Moderation.BlockedBetween | Textsy/ViewModels/Access/ReportBlockViewModel.swift:51-64 | a failed read of either user counts as blocked |
| Moderation.ReportBlockViewModel.constructor | Textsy/ViewModels/Access/ReportBlockViewModel.swift:18-20 | not blocked, no error and not submitted |
| Moderation.ReportBlockViewModel.BlockUser | Textsy/ViewModels/Access/ReportBlockViewModel.swift:23-35 | without a user nothing happens; otherwise the target is unioned into the stored block list and the flag or the error follows the update |
| Moderation.ReportBlockViewModel.UnblockUser | Textsy/ViewModels/Access/ReportBlockViewModel.swift:37-49 | the target is removed from the stored block list, and the flag or the error follows the update |
| Moderation.ReportBlockViewModel.IsBlockedBetween | Textsy/ViewModels/Access/ReportBlockViewModel.swift:51-64 | the answer is `BlockedBetween` on the stored users |
| Moderation.ReportBlockViewModel.CheckReportThreshold | Textsy/ViewModels/Access/ReportBlockViewModel.swift:90-108 | the user's `isSuspended` becomes whether they have at least 20 open reports; a failed query or update changes nothing |
| Moderation.ReportBlockViewModel.ReportUser | Textsy/ViewModels/Access/ReportBlockViewModel.swift:67-87 | without a user nothing happens; a failed write shows the error; otherwise one report is added under a fresh id, marked submitted, and the threshold is re-checked |
| Moderation.BlockedBetweenSymmetric | Textsy/ViewModels/Access/ReportBlockViewModel.swift:51-64 | whether two users are blocked does not depend on who asks |
| Moderation.BlockedAfterUpdate | Textsy/ViewModels/Access/ReportBlockViewModel.swift:28-30 | after a block-list update, the stored list is the one written |
| Moderation.BlockTakesEffect | Textsy/ViewModels/Access/ReportBlockViewModel.swift:23-64 | after a block, the pair counts as blocked from both sides |
| Moderation.BlockIdempotent | Textsy/ViewModels/Access/ReportBlockViewModel.swift:23-35 | blocking twice is the same as blocking once |
| Moderation.BlockThenUnblock | Textsy/ViewModels/Access/ReportBlockViewModel.swift:23-49 | unblocking after blocking leaves the target out and every other blocked id in |
| Moderation.ReportRaisesCount | Textsy/ViewModels/Access/ReportBlockViewModel.swift:67-108 | a report is stored open, and it raises the reported user's open count by one |
| Moderation.SuspensionFlagFollowsCount | Textsy/ViewModels/Access/ReportBlockViewModel.swift:90-108 | after the check, the stored flag is true exactly at or above the threshold, and the profile still decodes |
| Moderation.OpenReports | Textsy/ViewModels/Access/ReportBlockViewModel.swift:94-99 | the counted reports are stored reports about that user |
| Moderation.ActionedReportNotCounted | Textsy/ViewModels/Access/ReportBlockViewModel.swift:94-99 | a report whose `action` is set to true stops counting, and every other report counts as before |
| UserProfile.UserProfileViewModel.constructor | Textsy/ViewModels/User/UserProfileViewModel.swift:12-13 | not saving and no error |
| UserProfile.UserProfileViewModel.SaveUserProfile | Textsy/ViewModels/User/UserProfileViewModel.swift:16-67 | without a user nothing is written and a message is shown; a failed upload shows its error and writes nothing; otherwise the five profile fields replace the document, or the write error is shown |
| UserProfile.UserProfileViewModel.BlockUser | Textsy/ViewModels/User/UserProfileViewModel.swift:69-79 | the target is unioned into the stored block list when the update goes through |
| UserProfile.UserProfileViewModel.UnblockUser | Textsy/ViewModels/User/UserProfileViewModel.swift:81-91 | the target is removed from the stored block list when the update goes through |
| UserProfile.UserProfileViewModel.IsBlockedBetween | Textsy/ViewModels/User/UserProfileViewModel.swift:93-106 | the answer is `BlockedBetween` on the stored users |
| UserProfile.SavedProfileDecodes | Textsy/ViewModels/User/UserProfileViewModel.swift:45-58 | a saved profile decodes as the entered user, drops any earlier block list and has no suspension flag |
| Explore.FirstWithId | Textsy/ViewModels/User/ExploreViewModel.swift:28-33 | the first listed user with the id, present exactly when some listed user has it |
| Explore.ExploreViewModel.constructor | Textsy/ViewModels/User/ExploreViewModel.swift:10-11 | no users and no error |
| Explore.ExploreViewModel.FetchOtherUsers | Textsy/ViewModels/User/ExploreViewModel.swift:13-38 | a failed read keeps the list and shows the error; otherwise the list is the visible decodable users |
| Explore.ExploreMembers | Textsy/ViewModels/User/ExploreViewModel.swift:23-33 | a user is listed exactly when they decode, are not the current user, are not blocked by them and do not block them |
| Explore.ExploreList | Textsy/ViewModels/User/ExploreViewModel.swift:26-32 | the `filter` (its test is `Visible`) never lists the current user, a user they blocked, or a user whose first matching document blocks them; at most one user per document |
| Explore.BlockersHidden | Textsy/ViewModels/User/ExploreViewModel.swift:28-33 | a user who blocks the current user is never listed |
| Explore.ExploreKeepsOrder | Textsy/ViewModels/User/ExploreViewModel.swift:23-33 | the list keeps the order of the query |
| ProfileGate.Render | Textsy/Views/Profile/UserProfileWrapperView.swift:83-98 | the spinner exactly while loading; a profile only when loaded with no error |
| ProfileGate.FetchOutcome | Textsy/Views/Profile/UserProfileWrapperView.swift:104-142 | `fetchUser` leaves a user or an error, never both; a user only when not blocked, not suspended and decoded from the stored document; loading ends only then or on a thrown read |
| ProfileGate.UserProfileWrapper.constructor | Textsy/Views/Profile/UserProfileWrapperView.swift:77-79 | no user, loading and no error |
| ProfileGate.UserProfileWrapper.FetchUser | Textsy/Views/Profile/UserProfileWrapperView.swift:104-142 | the state left is `FetchOutcome` of the block check, the read and the suspension flag |
| ProfileGate.ProfileShownOnlyPastAllGates | Textsy/Views/Profile/UserProfileWrapperView.swift:104-142 | a profile is shown exactly past every gate, and it is the stored user |
| ProfileGate.FailedBlockCheckHides | Textsy/Views/Profile/UserProfileWrapperView.swift:113-117 | a failed block-check read hides the profile |
| ProfileGate.GateFailureKeepsSpinner | Textsy/Views/Profile/UserProfileWrapperView.swift:113-141 | every gate that stops the fetch leaves the spinner up; only a thrown read reaches the error text |
| ProfileGate.IntendedGateShowsMessage | Textsy/Views/Profile/UserProfileWrapperView.swift:113-141 | with loading cleared on every exit, each gate shows its own message and the profile shows exactly past all gates |
| Session.UserSession.constructor | Textsy/ViewModels/Shared/UserSession.swift:8-24 | every field empty and the profile not loaded |
| Session.UserSession.LoadFromFirebaseUser | Textsy/ViewModels/Shared/UserSession.swift:26-40 | the uid is copied, with "" for a missing email or name, and the profile is untouched |
| Session.UserSession.LoadUserProfileFromFirestore | Textsy/ViewModels/Shared/UserSession.swift:48-67 | a failed read or a missing document changes nothing; otherwise the fields are read leniently and the profile is marked loaded |
| Session.UserSession.Clear | Textsy/ViewModels/Shared/UserSession.swift:69-80 | every identity and profile field resets, so the profile is no longer complete |
| Session.CompletedLoadDecodes | Textsy/ViewModels/Shared/UserSession.swift:43-67 | a profile loaded as complete comes from a document `UserModel.init?` accepts, with the same fields |
| Session.SavedProfileLoads | Textsy/ViewModels/Shared/UserSession.swift:43-67 | loading a saved profile gives back what was entered; it is complete exactly when the entries were |
| Session.LoadedProfile | Textsy/ViewModels/Shared/UserSession.swift:55-59 | each stored field of the right type is carried; a missing or mistyped one loads as "", 0 or nil |
| Session.CompleteExactlyWhenStoredFilled | Textsy/ViewModels/Shared/UserSession.swift:43-45 | after a load, `hasCompletedProfile()` (the predicate `Completed`) holds exactly when the stored name, location and bio are non-empty strings and the age a positive `Int` |
| HomeSearch.HomeScreen.constructor | Textsy/HomeView.swift:9-13 | an empty query, not searching and no results |
| HomeSearch.HomeScreen.EditSearchText | Textsy/HomeView.swift:138-152 | an empty query ends the search; any other query sets the results to the matching chats |
| HomeSearch.HomeScreen.ClearSearch | Textsy/HomeView.swift:155-159 | the clear button resets query, flag and results, so the list is all chats again |
| HomeSearch.HomeScreen.ReceiveChats | Textsy/HomeView.swift:39 | a new chat snapshot replaces the list shown (one chat per document) and writes the cache exactly as the chat list does, errors only set the message, a removed listener changes nothing; the search text and results are left as they were, so results can go stale |
| HomeSearch.SearchResultsAreMatches | Textsy/HomeView.swift:145-150 | the results are exactly the matching chats, in list order |
| HomeSearch.SearchResults | Textsy/HomeView.swift:145-150 | every result is a chat of the list that matches the query (`Matches`), and there are no more results than chats |
| HomeSearch.MatchIgnoresCase | Textsy/HomeView.swift:145-150 | two queries that lowercase alike match the same chats |
| HomeSearch.RowsFor | Textsy/HomeView.swift:39-56 | the `ForEach` draws either no rows or every chat, and every chat whenever not searching |
| HomeSearch.SearchRowsAsWritten | Textsy/HomeView.swift:39-56 | during a search, the rows are all chats, non-matching ones included, or none |
| HomeSearch.IntendedSearchRowsMatch | Textsy/HomeView.swift:39-56 | drawing `chatList`, a search shows exactly the matching chats, in order |
| NotificationScreen.NotificationScreenState.constructor | Textsy/Views/NotificationView.swift:9 | no card is processing |
| NotificationScreen.NotificationScreenState.SayHi | Textsy/Views/NotificationView.swift:96-104 | the card is busy and then idle again; the store is the greeting followed by the "accepted" status update |
| NotificationScreen.NotificationScreenState.Decline | Textsy/Views/NotificationView.swift:112-118 | only the status changes, to "declined"; no request is deleted |
| NotificationScreen.GenerateChatIdSymmetric | Textsy/Views/NotificationView.swift:179-181 | both users compute the same chat id |
| NotificationScreen.GenerateChatId | Textsy/Views/NotificationView.swift:179-181 | the chat id is the uid that sorts first, "_", then the other |
| NotificationScreen.CardFor | Textsy/Views/NotificationView.swift:38-42 | a resolved card exactly for a notification with a status, showing that status; a spinner exactly while an unresolved one is processed; no buttons for an idle unresolved one that is not a request (lines 90-94) |
| NotificationScreen.ButtonsOnlyForOpenRequests | Textsy/Views/NotificationView.swift:38-42 | the buttons show exactly for an unresolved, idle request; a spinner while processing; resolved cards exactly for resolved notifications |
| NotificationScreen.SayHiEffect | Textsy/Views/NotificationView.swift:96-104 | "Say Hi" creates at most the generated chat, touches no request or user, and leaves the notification "accepted" when the update goes through |
| NotificationScreen.SayHiAfterAcceptAddsSecondChat | Textsy/ViewModels/NotificationViewModel.swift:30-52 | "Say Hi" checks for a chat only under the generated id, while `acceptRequest` (`RequestViewModel.swift:84-93`) adds its chat under an auto-id; so after an accept, a "Say Hi" that goes through adds exactly one more chat linking the pair, and at least two then link it |
| NotificationScreen.RespondedCardResolved | Textsy/Views/NotificationView.swift:38-42 | once a status is written, the notification's card is resolved with that status |
| Routing.PagesEqual | Textsy/Routing/AppRouting/AppPage.swift:36-46 | the hand-written `==` agrees with structural equality |
| Routing.AppRouter.constructor | Textsy/Routing/AppRouting/AppPage.swift:17 | the app starts on home |
| Routing.AppRouter.GoToHome | Textsy/Routing/AppRouting/AppPage.swift:20 | the page becomes home |
| Routing.AppRouter.GoToExplore | Textsy/Routing/AppRouting/AppPage.swift:21 | the page becomes explore |
| Routing.AppRouter.GoToProfileEdit | Textsy/Routing/AppRouting/AppPage.swift:22-24 | the page becomes the editor, by default not from sign-up |
| Routing.AppRouter.GoToChat | Textsy/Routing/AppRouting/AppPage.swift:26-28 | the page becomes that user's chat |
| Routing.AppRouter.GoToUserProfile | Textsy/Routing/AppRouting/AppPage.swift:29-31 | the page becomes that user's profile |
| Routing.AuthRouter.constructor | Textsy/Routing/AuthRouting/AuthPage.swift:12 | signed-out navigation starts on login |
| Routing.AuthRouter.GoToLogin | Textsy/Routing/AuthRouting/AuthPage.swift:15 | the page becomes login |
| Routing.AuthRouter.GoToSignup | Textsy/Routing/AuthRouting/AuthPage.swift:16 | the page becomes sign-up |
| Routing.AuthRouter.GoToForgot | Textsy/Routing/AuthRouting/AuthPage.swift:17 | the page becomes forgot-password |

## Left out

- Firebase Auth, Storage and Firestore are not modelled as code. The model is the store value plus one `Step` per call; query filters and orderings are modelled as predicates or given snapshots.
- Concurrency: each `async` function runs to completion as one step. No two tasks interleave, and `[weak self]` callbacks always find their object.
- The spinner shown between the two `isProcessing` writes is not observable, because each button's task is one step.
- The ID-token callback in `loadFromFirebaseUser` is left out; the token field is only reset by `clear`.
- Encoding `[ChatModel]` as JSON for the device cache is modelled as a map entry that is either `Encoded(chats)` or `Undecodable`. A failing `JSONEncoder` is left out.
- The image upload inside `saveUserProfile` (`Textsy/ViewModels/User/UserProfileViewModel.swift:31-41`: `jpegData`, `putDataAsync`, `downloadURL`) is an input: `Uploaded(url)` or `UploadFailed(reason)`.
- The force-unwrap `data!` at `Textsy/ViewModels/User/UserProfileViewModel.swift:35` crashes the app when `jpegData` returns nil; a crash is outside the model, which treats every given image as encodable.
- `UserModel.isSuspended` is not decoded by `Models/UserModel.swift`; the profile gate takes the flag as a bool input.
- Dates are integer timestamps, and "now" is a parameter.
- `String.lowercased()` is a function parameter; `contains` is the substring test.
- Swift's `sorted()` on strings is modelled as lexicographic order on characters.
- ChatList.ChatsWithinPageSize: takes `limit(to: pageSize)` as a requirement on the snapshot rather than modelling the query.
- ChatSession.FetchedMessagesInTimeOrder: takes `order(by: "timestamp")` as a requirement on the snapshot.
- NotificationFeed.FeedInvolvesUserNewestFirst: takes the query's filter and order as requirements on the snapshot.
- Debug `print` output, SwiftUI layout, colours, images and dates are left out.
- The stale or duplicate copies of screens and view models outside the files cited above are not part of this model, and neither are `AuthViewModel` and `MainAppRouterView`.

## Findings

| source | as written | input that shows it | evidently intended | confidence | as-written member | corrected member |
|---|---|---|---|---|---|---|
| Textsy/HomeView.swift:39-56 | the empty-state test looks at `chatList`, but the rows are drawn from `viewModel.chats` | chats A and B, and a query matching only A: both A and B are drawn | draw `chatList`, so a search shows only matching chats | high (not executed) | HomeSearch.SearchRowsAsWritten | HomeSearch.IntendedSearchRowsMatch |
| Textsy/Views/Profile/UserProfileWrapperView.swift:113-141 | the block, missing-document, undecodable and suspended gates `return` before `isLoading = false` | a blocked pair: `error` is set, but `isLoading` stays true and the spinner never goes away | clear `isLoading` on every exit, so the gate's message is shown | high (not executed) | ProfileGate.GateFailureKeepsSpinner | ProfileGate.IntendedGateShowsMessage |
