/** The document models of `Models/ChatModel.swift`: a chat, a message, a
    notification, a chat request and a report, each with its decoder from a
    stored document and, where the app has one, its encoder. */
module ChatModels {
  import opened Wrappers
  import opened Documents

  // ---------------------------------------------------------------- ChatModel

  datatype ChatModel = ChatModel(
    id: string,
    chatId: string,
    participants: seq<string>,
    senderId: string,
    receiverId: string,
    senderName: string,
    receiverName: string,
    profileImageURL: string,
    lastMessage: string,
    timeStamp: int,
    hiddenFor: seq<string>)

  /** `ChatModel.init(id:data:)`. It cannot fail: a missing or mistyped string
      reads as "", a missing list as [], a missing `timeStamp` as the time of
      decoding (`now`). */
  function DecodeChat(id: string, data: Doc, now: int): (c: ChatModel)
    ensures c.id == id
    ensures data == map[] ==> c == ChatModel(id, "", [], "", "", "", "", "", "", now, [])
    // a string that is present is carried; a missing or mistyped one is ""
    ensures GetStr(data, "chatId") == Some(c.chatId) || (GetStr(data, "chatId").None? && c.chatId == "")
    ensures GetStr(data, "senderId") == Some(c.senderId) || (GetStr(data, "senderId").None? && c.senderId == "")
    ensures GetStr(data, "receiverId") == Some(c.receiverId) || (GetStr(data, "receiverId").None? && c.receiverId == "")
    ensures GetStr(data, "senderName") == Some(c.senderName) || (GetStr(data, "senderName").None? && c.senderName == "")
    ensures GetStr(data, "receiverName") == Some(c.receiverName) || (GetStr(data, "receiverName").None? && c.receiverName == "")
    ensures GetStr(data, "profileImageURL") == Some(c.profileImageURL) || (GetStr(data, "profileImageURL").None? && c.profileImageURL == "")
    ensures GetStr(data, "lastMessage") == Some(c.lastMessage) || (GetStr(data, "lastMessage").None? && c.lastMessage == "")
    // lists likewise, with [] for a missing one
    ensures GetStrList(data, "participants") == Some(c.participants) || (GetStrList(data, "participants").None? && c.participants == [])
    ensures GetStrList(data, "hiddenFor") == Some(c.hiddenFor) || (GetStrList(data, "hiddenFor").None? && c.hiddenFor == [])
    // a stored timestamp is carried; without one the chat is dated `now`
    ensures GetTs(data, "timeStamp") == Some(c.timeStamp) || (GetTs(data, "timeStamp").None? && c.timeStamp == now)
  {
    ChatModel(
      id,
      GetStr(data, "chatId").GetOr(""),
      GetStrList(data, "participants").GetOr([]),
      GetStr(data, "senderId").GetOr(""),
      GetStr(data, "receiverId").GetOr(""),
      GetStr(data, "senderName").GetOr(""),
      GetStr(data, "receiverName").GetOr(""),
      GetStr(data, "profileImageURL").GetOr(""),
      GetStr(data, "lastMessage").GetOr(""),
      GetTs(data, "timeStamp").GetOr(now),
      GetStrList(data, "hiddenFor").GetOr([]))
  }

  // ------------------------------------------------------------- MessageModel

  datatype MessageModel = MessageModel(
    id: string,
    senderId: string,
    receiverId: string,
    senderName: string,
    receiverName: string,
    text: string,
    timestamp: int,
    deletedFor: seq<string>)

  /** The fields `MessageModel.init?` insists on. */
  predicate HasMessageFields(d: Doc) {
    && GetStr(d, "senderId").Some?
    && GetStr(d, "receiverId").Some?
    && GetStr(d, "senderName").Some?
    && GetStr(d, "receiverName").Some?
    && GetStr(d, "text").Some?
    && GetTs(d, "timestamp").Some?
  }

  /** `MessageModel.init?(id:data:)`: nil exactly when one of the five strings
      or the timestamp is missing or mistyped; a missing `deletedFor` is []. */
  function DecodeMessage(id: string, data: Doc): (r: Option<MessageModel>)
    ensures r.Some? <==> HasMessageFields(data)
    ensures r.Some? ==> r.value.id == id && Some(r.value.text) == GetStr(data, "text")
    ensures r.Some? ==> Some(r.value.timestamp) == GetTs(data, "timestamp")
    ensures r.Some? ==> Some(r.value.senderId) == GetStr(data, "senderId") && Some(r.value.receiverId) == GetStr(data, "receiverId")
    ensures r.Some? ==> Some(r.value.senderName) == GetStr(data, "senderName") && Some(r.value.receiverName) == GetStr(data, "receiverName")
    // a present list is carried; a missing or mistyped one is []
    ensures r.Some? ==> GetStrList(data, "deletedFor") == Some(r.value.deletedFor) ||
                        (GetStrList(data, "deletedFor").None? && r.value.deletedFor == [])
    ensures r.Some? && "deletedFor" !in data ==> r.value.deletedFor == []
  {
    if !HasMessageFields(data) then None
    else Some(MessageModel(
      id,
      GetStr(data, "senderId").value,
      GetStr(data, "receiverId").value,
      GetStr(data, "senderName").value,
      GetStr(data, "receiverName").value,
      GetStr(data, "text").value,
      GetTs(data, "timestamp").value,
      GetStrList(data, "deletedFor").GetOr([])))
  }

  /** Decodes one snapshot document as a message. */
  function MessageOf(doc: DocSnapshot): Option<MessageModel> {
    DecodeMessage(doc.id, doc.data)
  }

  /** `MessageModel.asDictionary`. */
  function MessageToDoc(m: MessageModel): (d: Doc)
    ensures d.Keys == {"senderId", "receiverId", "senderName", "receiverName", "text", "timestamp", "deletedFor"}
  {
    map[
      "senderId" := Str(m.senderId),
      "receiverId" := Str(m.receiverId),
      "senderName" := Str(m.senderName),
      "receiverName" := Str(m.receiverName),
      "text" := Str(m.text),
      "timestamp" := Ts(m.timestamp),
      "deletedFor" := StrList(m.deletedFor)]
  }

  lemma MessageRoundTrip(m: MessageModel)
    ensures DecodeMessage(m.id, MessageToDoc(m)) == Some(m)
  {
  }

  // -------------------------------------------------------- NotificationModel

  /** `NotificationModel.NotificationType`, a string-backed enum. */
  datatype NotificationType = Request | Accepted | Declined

  /** The enum's `rawValue`. */
  function RawType(t: NotificationType): string {
    match t
    case Request => "request"
    case Accepted => "accepted"
    case Declined => "declined"
  }

  /** `NotificationType(rawValue:)`: only the three raw strings are accepted. */
  function ParseType(raw: string): (t: Option<NotificationType>)
    ensures t.Some? <==> raw == "request" || raw == "accepted" || raw == "declined"
    ensures t.Some? ==> RawType(t.value) == raw
  {
    if raw == "request" then Some(Request)
    else if raw == "accepted" then Some(Accepted)
    else if raw == "declined" then Some(Declined)
    else None
  }

  lemma ParseRawType(t: NotificationType)
    ensures ParseType(RawType(t)) == Some(t)
  {
  }

  /** `kind` is the Swift field `type`. */
  datatype NotificationModel = NotificationModel(
    id: string,
    senderId: string,
    receiverId: string,
    senderName: string,
    receiverName: string,
    senderImageUrl: Option<string>,
    kind: NotificationType,
    message: string,
    timestamp: int,
    status: Option<string>)

  predicate HasNotificationFields(d: Doc) {
    && GetStr(d, "senderId").Some?
    && GetStr(d, "receiverId").Some?
    && GetStr(d, "senderName").Some?
    && GetStr(d, "receiverName").Some?
    && GetStr(d, "type").Some?
    && ParseType(GetStr(d, "type").value).Some?
    && GetStr(d, "message").Some?
    && GetTs(d, "timestamp").Some?
  }

  /** `NotificationModel.init?(id:data:)`: nil when a required string or the
      timestamp is missing, or when `type` is not one of the three raw values.
      `senderImageUrl` and `status` stay nil when absent. */
  function DecodeNotification(id: string, data: Doc): (r: Option<NotificationModel>)
    ensures r.Some? <==> HasNotificationFields(data)
    ensures r.Some? ==> r.value.id == id && RawType(r.value.kind) == data["type"].s
    ensures r.Some? ==> r.value.status == GetStr(data, "status")
    ensures r.Some? ==> Some(r.value.senderId) == GetStr(data, "senderId")
    ensures r.Some? ==> Some(r.value.receiverId) == GetStr(data, "receiverId")
    ensures r.Some? ==> Some(r.value.timestamp) == GetTs(data, "timestamp")
    ensures r.Some? ==> Some(r.value.senderName) == GetStr(data, "senderName") && Some(r.value.receiverName) == GetStr(data, "receiverName")
    ensures r.Some? ==> Some(r.value.message) == GetStr(data, "message")
    ensures r.Some? ==> r.value.senderImageUrl == GetStr(data, "senderImageUrl")
  {
    if !HasNotificationFields(data) then None
    else Some(NotificationModel(
      id,
      GetStr(data, "senderId").value,
      GetStr(data, "receiverId").value,
      GetStr(data, "senderName").value,
      GetStr(data, "receiverName").value,
      GetStr(data, "senderImageUrl"),
      ParseType(GetStr(data, "type").value).value,
      GetStr(data, "message").value,
      GetTs(data, "timestamp").value,
      GetStr(data, "status")))
  }

  function NotificationOf(doc: DocSnapshot): Option<NotificationModel> {
    DecodeNotification(doc.id, doc.data)
  }

  /** `NotificationModel.asDictionary`: a nil image becomes "", a nil status "none". */
  function NotificationToDoc(n: NotificationModel): (d: Doc)
    ensures d.Keys == {"senderId", "receiverId", "senderName", "receiverName", "senderImageUrl",
                       "type", "message", "timestamp", "status"}
  {
    map[
      "senderId" := Str(n.senderId),
      "receiverId" := Str(n.receiverId),
      "senderName" := Str(n.senderName),
      "receiverName" := Str(n.receiverName),
      "senderImageUrl" := Str(n.senderImageUrl.GetOr("")),
      "type" := Str(RawType(n.kind)),
      "message" := Str(n.message),
      "timestamp" := Ts(n.timestamp),
      "status" := Str(n.status.GetOr("none"))]
  }

  /** Encoding and decoding again fills in both optionals: the image as "",
      the status as "none". */
  lemma NotificationReencoded(n: NotificationModel)
    ensures DecodeNotification(n.id, NotificationToDoc(n)) ==
      Some(n.(senderImageUrl := Some(n.senderImageUrl.GetOr("")), status := Some(n.status.GetOr("none"))))
  {
    ParseRawType(n.kind);
  }

  lemma NotificationRoundTrip(n: NotificationModel)
    requires n.senderImageUrl.Some? && n.status.Some?
    ensures DecodeNotification(n.id, NotificationToDoc(n)) == Some(n)
  {
    NotificationReencoded(n);
  }

  /** An unresolved notification (nil status) does not survive the round trip:
      it comes back resolved with status "none". */
  lemma UnresolvedNotificationNotRoundTripped(n: NotificationModel)
    requires n.status.None?
    ensures DecodeNotification(n.id, NotificationToDoc(n)) != Some(n)
    ensures DecodeNotification(n.id, NotificationToDoc(n)).value.status == Some("none")
  {
    NotificationReencoded(n);
  }

  // ------------------------------------------------------------- RequestModel

  datatype RequestModel = RequestModel(
    id: string,
    senderId: string,
    receiverId: string,
    senderName: string,
    receiverName: string,
    age: int,
    location: string,
    bio: string,
    profileImageUrl: Option<string>,
    timestamp: int)

  predicate HasRequestFields(d: Doc) {
    && GetStr(d, "senderId").Some?
    && GetStr(d, "receiverId").Some?
    && GetStr(d, "senderName").Some?
    && GetStr(d, "receiverName").Some?
    && GetInt(d, "age").Some?
    && GetStr(d, "location").Some?
    && GetStr(d, "bio").Some?
    && GetTs(d, "timestamp").Some?
  }

  /** `RequestModel.init?(id:data:)`: nil exactly when a required field is
      missing or mistyped (`age` must be an integer); the image is optional. */
  function DecodeRequest(id: string, data: Doc): (r: Option<RequestModel>)
    ensures r.Some? <==> HasRequestFields(data)
    ensures r.Some? ==> r.value.id == id && Some(r.value.age) == GetInt(data, "age")
    ensures r.Some? ==> r.value.profileImageUrl == GetStr(data, "profileImageUrl")
    ensures r.Some? ==> Some(r.value.senderId) == GetStr(data, "senderId") && Some(r.value.receiverId) == GetStr(data, "receiverId")
    ensures r.Some? ==> Some(r.value.senderName) == GetStr(data, "senderName") && Some(r.value.receiverName) == GetStr(data, "receiverName")
    ensures r.Some? ==> Some(r.value.location) == GetStr(data, "location") && Some(r.value.bio) == GetStr(data, "bio")
    ensures r.Some? ==> Some(r.value.timestamp) == GetTs(data, "timestamp")
  {
    if !HasRequestFields(data) then None
    else Some(RequestModel(
      id,
      GetStr(data, "senderId").value,
      GetStr(data, "receiverId").value,
      GetStr(data, "senderName").value,
      GetStr(data, "receiverName").value,
      GetInt(data, "age").value,
      GetStr(data, "location").value,
      GetStr(data, "bio").value,
      GetStr(data, "profileImageUrl"),
      GetTs(data, "timestamp").value))
  }

  function RequestOf(doc: DocSnapshot): Option<RequestModel> {
    DecodeRequest(doc.id, doc.data)
  }

  /** `RequestModel.asDictionary`: a nil image is written as "". */
  function RequestToDoc(r: RequestModel): (d: Doc)
    ensures d.Keys == {"senderId", "receiverId", "senderName", "receiverName", "age", "location",
                       "bio", "profileImageUrl", "timestamp"}
  {
    map[
      "senderId" := Str(r.senderId),
      "receiverId" := Str(r.receiverId),
      "senderName" := Str(r.senderName),
      "receiverName" := Str(r.receiverName),
      "age" := Int(r.age),
      "location" := Str(r.location),
      "bio" := Str(r.bio),
      "profileImageUrl" := Str(r.profileImageUrl.GetOr("")),
      "timestamp" := Ts(r.timestamp)]
  }

  lemma RequestReencoded(r: RequestModel)
    ensures DecodeRequest(r.id, RequestToDoc(r)) == Some(r.(profileImageUrl := Some(r.profileImageUrl.GetOr(""))))
  {
  }

  lemma RequestRoundTrip(r: RequestModel)
    requires r.profileImageUrl.Some?
    ensures DecodeRequest(r.id, RequestToDoc(r)) == Some(r)
  {
    RequestReencoded(r);
  }

  // -------------------------------------------------------------- ReportModel

  datatype ReportModel = ReportModel(
    id: string,
    reporterId: string,
    reportedId: string,
    reason: string,
    otherReason: Option<string>,
    action: bool,
    feedback: Option<string>,
    timestamp: int)

  /** `ReportModel.init(id:data:)`: never fails; `action` defaults to false,
      strings to "", the optional strings stay nil, the time to `now`. */
  function DecodeReport(id: string, data: Doc, now: int): (r: ReportModel)
    ensures r.id == id
    ensures r.action <==> GetBool(data, "action") == Some(true)
    ensures r.otherReason == GetStr(data, "otherReason") && r.feedback == GetStr(data, "feedback")
    ensures data == map[] ==> r == ReportModel(id, "", "", "", None, false, None, now)
    // a string that is present is carried; a missing or mistyped one is ""
    ensures GetStr(data, "reporterId") == Some(r.reporterId) || (GetStr(data, "reporterId").None? && r.reporterId == "")
    ensures GetStr(data, "reportedId") == Some(r.reportedId) || (GetStr(data, "reportedId").None? && r.reportedId == "")
    ensures GetStr(data, "reason") == Some(r.reason) || (GetStr(data, "reason").None? && r.reason == "")
    // a stored timestamp is carried; without one the report is dated `now`
    ensures GetTs(data, "timestamp") == Some(r.timestamp) || (GetTs(data, "timestamp").None? && r.timestamp == now)
  {
    ReportModel(
      id,
      GetStr(data, "reporterId").GetOr(""),
      GetStr(data, "reportedId").GetOr(""),
      GetStr(data, "reason").GetOr(""),
      GetStr(data, "otherReason"),
      GetBool(data, "action").GetOr(false),
      GetStr(data, "feedback"),
      GetTs(data, "timestamp").GetOr(now))
  }

  /** `ReportModel.toDict()`: nil `otherReason` and `feedback` are written as "". */
  function ReportToDoc(r: ReportModel): (d: Doc)
    ensures d.Keys == {"reporterId", "reportedId", "reason", "otherReason", "action", "feedback", "timestamp"}
  {
    map[
      "reporterId" := Str(r.reporterId),
      "reportedId" := Str(r.reportedId),
      "reason" := Str(r.reason),
      "otherReason" := Str(r.otherReason.GetOr("")),
      "action" := Bool(r.action),
      "feedback" := Str(r.feedback.GetOr("")),
      "timestamp" := Ts(r.timestamp)]
  }

  lemma ReportReencoded(r: ReportModel, now: int)
    ensures DecodeReport(r.id, ReportToDoc(r), now) ==
      r.(otherReason := Some(r.otherReason.GetOr("")), feedback := Some(r.feedback.GetOr("")))
  {
  }
}
