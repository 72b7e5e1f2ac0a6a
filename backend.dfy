/** The Firestore backend as an in-memory value. Each SDK call the app makes
    becomes one step on that value: `addDocument`, `setData`, `updateData`,
    `delete`, or a read. Whether a call reaches the server is decided by the
    caller through a `Step` argument; what a call does once it gets there is
    defined here. */
module Backend {
  import opened Wrappers
  import opened Documents

  /** The top-level collections the app uses. */
  datatype Collection = Users | Chats | Requests | Notifications | Reports

  /** The outcome of one SDK call: it went through, or it threw with a message. */
  datatype Step = Ok | Failed(reason: string)

  /** The message `updateData` fails with when the document does not exist. */
  const NoDocumentReason: string := "No document to update"

  /** All stored documents: the five top-level collections, and for each chat
      id the documents of its `messages` sub-collection. */
  datatype Store = Store(
    users: map<string, Doc>,
    chats: map<string, Doc>,
    requests: map<string, Doc>,
    notifications: map<string, Doc>,
    reports: map<string, Doc>,
    messages: map<string, map<string, Doc>>)
  {
    /** The documents of a collection by id. */
    function Docs(c: Collection): map<string, Doc> {
      match c
      case Users => users
      case Chats => chats
      case Requests => requests
      case Notifications => notifications
      case Reports => reports
    }

    /** The `chats/{chatId}/messages` sub-collection; empty when never written. */
    function Messages(chatId: string): map<string, Doc> {
      if chatId in messages then messages[chatId] else map[]
    }

    /** The store with collection `c` replaced by `docs` and nothing else changed. */
    function With(c: Collection, docs: map<string, Doc>): (s: Store)
      ensures s.Docs(c) == docs
      ensures forall other :: other != c ==> s.Docs(other) == Docs(other)
      ensures s.messages == messages
    {
      match c
      case Users => this.(users := docs)
      case Chats => this.(chats := docs)
      case Requests => this.(requests := docs)
      case Notifications => this.(notifications := docs)
      case Reports => this.(reports := docs)
    }

    /** The store after document `id` of `c` is (over)written with `d`. */
    function Put(c: Collection, id: string, d: Doc): Store {
      With(c, Docs(c)[id := d])
    }

    /** The store after document `id` of `c` is deleted; deleting a missing document is a no-op. */
    function Remove(c: Collection, id: string): Store {
      With(c, Docs(c) - {id})
    }

    /** The store after message `id` is written under chat `chatId`, whether or
        not the chat document itself exists. */
    function PutMessage(chatId: string, id: string, d: Doc): (s: Store)
      ensures s.Messages(chatId) == Messages(chatId)[id := d]
      ensures forall other :: other != chatId ==> s.Messages(other) == Messages(other)
      ensures s.(messages := messages) == this
    {
      this.(messages := messages[chatId := Messages(chatId)[id := d]])
    }
  }

  /** An id no document in `taken` has: one character longer than the longest
      id taken. Stands for Firestore's generated document ids. */
  method NewId(taken: set<string>) returns (id: string)
    ensures id !in taken
  {
    var longest: nat := 0;
    var rest := taken;
    while rest != {}
      invariant rest <= taken
      invariant forall t :: t in taken && t !in rest ==> |t| <= longest
      decreases |rest|
    {
      var t :| t in rest;
      if |t| > longest {
        longest := |t|;
      }
      rest := rest - {t};
    }
    id := seq(longest + 1, _ => 'x');
  }

  /** The shared database handle (`Firestore.firestore()`). */
  class Database {
    var store: Store

    constructor(initial: Store)
      ensures store == initial
    {
      store := initial;
    }

    /** `collection(c).addDocument(data:)`: a new document under a fresh id. */
    method Add(c: Collection, data: Doc) returns (id: string)
      modifies this
      ensures id !in old(store.Docs(c))
      ensures store == old(store).Put(c, id, data)
    {
      id := NewId(store.Docs(c).Keys);
      store := store.Put(c, id, data);
    }

    /** `document(id).setData(data)`: creates or replaces the whole document. */
    method SetData(c: Collection, id: string, data: Doc)
      modifies this
      ensures store == old(store).Put(c, id, data)
    {
      store := store.Put(c, id, data);
    }

    /** `document(id).updateData(fields)`: merges `fields` into an existing
        document and fails, changing nothing, when there is no such document. */
    method Update(c: Collection, id: string, fields: Doc) returns (step: Step)
      modifies this
      ensures step.Ok? <==> id in old(store.Docs(c))
      ensures step.Ok? ==> store == old(store).Put(c, id, old(store.Docs(c))[id] + fields)
      ensures step.Failed? ==> store == old(store) && step.reason == NoDocumentReason
    {
      if id in store.Docs(c) {
        store := store.Put(c, id, store.Docs(c)[id] + fields);
        step := Ok;
      } else {
        step := Failed(NoDocumentReason);
      }
    }

    /** An `updateData(fields)` call whose transport outcome is `call`: a
        call that does not reach the server changes nothing. */
    method TryUpdate(c: Collection, id: string, fields: Doc, call: Step) returns (step: Step)
      modifies this
      ensures step.Ok? <==> UpdateError(old(store.Docs(c)), id, call).None?
      ensures step.Failed? ==> step.reason == UpdateError(old(store.Docs(c)), id, call).value
      ensures store == old(store).With(c, Updated(old(store.Docs(c)), id, fields, call))
    {
      if call.Failed? {
        return call;
      }
      step := Update(c, id, fields);
    }

    /** `document(id).delete()`. */
    method Delete(c: Collection, id: string)
      modifies this
      ensures store == old(store).Remove(c, id)
    {
      store := store.Remove(c, id);
    }

    /** `document(chatId).collection("messages").addDocument(data:)`. */
    method AddMessage(chatId: string, data: Doc) returns (id: string)
      modifies this
      ensures id !in old(store.Messages(chatId))
      ensures store == old(store).PutMessage(chatId, id, data)
    {
      id := NewId(store.Messages(chatId).Keys);
      store := store.PutMessage(chatId, id, data);
    }
  }

  /** A collection after `updateData(fields)` on `id`: unchanged when the
      call fails or the document is missing. */
  function Updated(docs: map<string, Doc>, id: string, fields: Doc, call: Step): (r: map<string, Doc>)
    ensures r.Keys == docs.Keys
  {
    if call.Ok? && id in docs then docs[id := docs[id] + fields] else docs
  }

  /** Why `updateData` on `id` threw, if it did. */
  function UpdateError(docs: map<string, Doc>, id: string, call: Step): (err: Option<string>)
    ensures err.None? <==> call.Ok? && id in docs
  {
    if call.Failed? then Some(call.reason) else if id !in docs then Some(NoDocumentReason) else None
  }

  // ------------------------------------------------------------ shared reads

  /** What `fetchCurrentUserInfo` / `fetchUserInfo` return: the stored name and image. */
  datatype UserInfo = UserInfo(name: string, imageUrl: Option<string>)

  /** Reads `users/{uid}`. Nil only when the read itself fails: a missing
      document or a missing name still gives a result, with name "". */
  function FetchUserInfo(users: map<string, Doc>, uid: string, read: Step): (info: Option<UserInfo>)
    ensures info.None? <==> read.Failed?
    ensures info.Some? && uid !in users ==> info.value == UserInfo("", None)
    ensures info.Some? && uid in users ==>
      info.value.name == GetStr(users[uid], "name").GetOr("") &&
      info.value.imageUrl == GetStr(users[uid], "profileImageUrl")
  {
    if read.Failed? then None
    else if uid !in users then Some(UserInfo("", None))
    else Some(UserInfo(GetStr(users[uid], "name").GetOr(""), GetStr(users[uid], "profileImageUrl")))
  }

  /** `userDoc["blocked"] as? [String] ?? []`, for a document that may not exist. */
  function BlockedOf(users: map<string, Doc>, uid: string): (blocked: seq<string>)
    ensures uid !in users ==> blocked == []
  {
    if uid in users then GetStrList(users[uid], "blocked").GetOr([]) else []
  }

  /** `FieldValue.arrayUnion([x])` applied to a stored list: `x` is appended
      unless already present. */
  function ArrayUnion(list: seq<string>, x: string): (r: seq<string>)
    ensures x in r
    ensures forall y :: y in r <==> y in list || y == x
    ensures x in list ==> r == list
    ensures x !in list ==> r == list + [x]
  {
    if x in list then list else list + [x]
  }

  /** `FieldValue.arrayRemove([x])` applied to a stored list: every occurrence
      of `x` goes, the rest keeps its order. */
  function ArrayRemove(list: seq<string>, x: string): (r: seq<string>)
    ensures x !in r
    ensures forall y :: y in r <==> y in list && y != x
    ensures |r| <= |list|
    ensures x !in list ==> r == list
  {
    if list == [] then []
    else if list[0] == x then ArrayRemove(list[1..], x)
    else [list[0]] + ArrayRemove(list[1..], x)
  }

  lemma ArrayUnionIdempotent(list: seq<string>, x: string)
    ensures ArrayUnion(ArrayUnion(list, x), x) == ArrayUnion(list, x)
  {
  }

  /** Removing after adding leaves `x` absent and every other entry as it was. */
  lemma UnionThenRemove(list: seq<string>, x: string)
    ensures ArrayRemove(ArrayUnion(list, x), x) == ArrayRemove(list, x)
  {
    if x !in list {
      ArrayRemoveAppend(list, x);
    }
  }

  lemma {:induction false} ArrayRemoveAppend(list: seq<string>, x: string)
    ensures ArrayRemove(list + [x], x) == ArrayRemove(list, x)
  {
    if list == [] {
      assert [x][1..] == [];
    } else {
      assert (list + [x])[1..] == list[1..] + [x];
      ArrayRemoveAppend(list[1..], x);
    }
  }

  /** The `blocked` update of `blockUser`, computed on the stored document. */
  function BlockFields(users: map<string, Doc>, uid: string, target: string): Doc {
    map["blocked" := StrList(ArrayUnion(BlockedOf(users, uid), target))]
  }

  /** The `blocked` update of `unblockUser`, computed on the stored document. */
  function UnblockFields(users: map<string, Doc>, uid: string, target: string): Doc {
    map["blocked" := StrList(ArrayRemove(BlockedOf(users, uid), target))]
  }
}
