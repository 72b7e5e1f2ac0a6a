/** The home chat list of `ViewModels/Chat/ChatViewModel.swift`: a live
    listener over the user's chats with a device cache shown first. */
module ChatList {
  import opened Wrappers
  import opened Documents
  import opened Seqs
  import opened ChatModels

  /** The `UserDefaults` key of the chat cache. */
  const CacheKey: string := "cached_chats_v2"

  /** The default `pageSize` of `listenToChats`. */
  const DefaultPageSize: nat := 30

  /** What `UserDefaults` holds under a key: JSON that decodes to a chat list,
      or bytes `JSONDecoder` rejects. */
  datatype CacheEntry = Encoded(chats: seq<ChatModel>) | Undecodable

  /** What a chat listener delivers: an error, no snapshot, or the documents. */
  datatype ChatEvent = ListenerError(reason: string) | NoSnapshot | Snapshot(docs: seq<DocSnapshot>)

  /** The device's `UserDefaults`. */
  class DeviceCache {
    var entries: map<string, CacheEntry>

    constructor(entries: map<string, CacheEntry>)
      ensures this.entries == entries
    {
      this.entries := entries;
    }
  }

  /** The chat list a `loadCache` would show: nothing when the key is missing
      or its data does not decode. */
  function CachedChats(entries: map<string, CacheEntry>): (r: Option<seq<ChatModel>>)
    ensures r.Some? <==> CacheKey in entries && entries[CacheKey].Encoded?
  {
    if CacheKey in entries && entries[CacheKey].Encoded? then Some(entries[CacheKey].chats) else None
  }

  /** `docs.compactMap { ChatModel(id:data:) }`, with `now` as the decoding time. */
  function DecodeChats(docs: seq<DocSnapshot>, now: int): (chats: seq<ChatModel>)
    ensures |chats| == |docs|
    ensures forall i :: 0 <= i < |docs| ==> chats[i].id == docs[i].id
  {
    FilterMapKeepsAll(docs, (d: DocSnapshot) => Some(DecodeChat(d.id, d.data, now)));
    FilterMap(docs, (d: DocSnapshot) => Some(DecodeChat(d.id, d.data, now)))
  }

  class ChatViewModel {
    var chats: seq<ChatModel>
    var errorMessage: string
    /** The current `ListenerRegistration`, by number. */
    var listener: Option<nat>
    /** The registrations the backend still delivers snapshots to. */
    var liveListeners: set<nat>
    var nextRegistration: nat
    const cache: DeviceCache

    /** At most one listener is live, and only the current one. */
    ghost predicate Valid()
      reads this
    {
      && liveListeners <= (if listener.Some? then {listener.value} else {})
      && (listener.Some? ==> listener.value < nextRegistration)
    }

    constructor(cache: DeviceCache)
      ensures Valid() && this.cache == cache
      ensures chats == [] && errorMessage == "" && listener.None? && liveListeners == {}
    {
      this.cache := cache;
      chats := [];
      errorMessage := "";
      listener := None;
      liveListeners := {};
      nextRegistration := 0;
    }

    /** `loadCache()`: shows the cached list, or leaves `chats` alone when
        there is none or it does not decode. */
    method LoadCache()
      modifies this
      ensures chats == CachedChats(cache.entries).GetOr(old(chats))
      ensures errorMessage == old(errorMessage) && listener == old(listener)
      ensures liveListeners == old(liveListeners) && nextRegistration == old(nextRegistration)
    {
      if CacheKey in cache.entries && cache.entries[CacheKey].Encoded? {
        chats := cache.entries[CacheKey].chats;
      }
    }

    /** `saveCache(_:)`: stores the list under the cache key. */
    method SaveCache(items: seq<ChatModel>)
      modifies cache
      ensures cache.entries == old(cache.entries)[CacheKey := Encoded(items)]
    {
      cache.entries := cache.entries[CacheKey := Encoded(items)];
    }

    /** `listenToChats(for:pageSize:)`: shows the cache, removes the previous
        listener, then registers a new one, which becomes the only live one. */
    method ListenToChats(userId: string, pageSize: nat := DefaultPageSize) returns (registration: nat)
      requires Valid()
      modifies this
      ensures Valid()
      ensures chats == CachedChats(cache.entries).GetOr(old(chats))
      ensures registration !in old(liveListeners) && registration >= old(nextRegistration)
      ensures listener == Some(registration) && liveListeners == {registration}
      ensures errorMessage == old(errorMessage)
    {
      LoadCache();
      if listener.Some? {
        liveListeners := liveListeners - {listener.value};
      }
      registration := nextRegistration;
      nextRegistration := nextRegistration + 1;
      liveListeners := liveListeners + {registration};
      listener := Some(registration);
    }

    /** The snapshot handler registered by `listenToChats`. An error or a
        missing snapshot only sets `errorMessage`; a snapshot replaces the
        list, one chat per document in order, and writes it to the cache. A
        removed listener delivers nothing. */
    method OnChatsSnapshot(registration: nat, event: ChatEvent, now: int)
      requires Valid()
      modifies this, cache
      ensures Valid()
      ensures listener == old(listener) && liveListeners == old(liveListeners)
      ensures registration !in old(liveListeners) ==>
        chats == old(chats) && errorMessage == old(errorMessage) && cache.entries == old(cache.entries)
      ensures registration in old(liveListeners) ==>
        match event
        case ListenerError(reason) =>
          chats == old(chats) && errorMessage == "❌ Listener failed: " + reason && cache.entries == old(cache.entries)
        case NoSnapshot =>
          chats == old(chats) && errorMessage == "❌ No chat documents found" && cache.entries == old(cache.entries)
        case Snapshot(docs) =>
          && chats == DecodeChats(docs, now)
          && errorMessage == old(errorMessage)
          && cache.entries == old(cache.entries)[CacheKey := Encoded(chats)]
    {
      if registration !in liveListeners {
        return;
      }
      match event
      case ListenerError(reason) =>
        errorMessage := "❌ Listener failed: " + reason;
      case NoSnapshot =>
        errorMessage := "❌ No chat documents found";
      case Snapshot(docs) =>
        chats := DecodeChats(docs, now);
        SaveCache(chats);
    }

    /** `deinit`: the listener is removed; the field keeps its old value. */
    method Deinit()
      requires Valid()
      modifies this
      ensures Valid()
      ensures liveListeners == {} && listener == old(listener) && chats == old(chats)
    {
      if listener.Some? {
        liveListeners := liveListeners - {listener.value};
      }
    }
  }

  // ------------------------------------------------------------ properties

  /** `ChatModel(id:data:)` never fails, so the list has exactly one chat per
      snapshot document, in snapshot order, with the document's id. */
  lemma DecodeChatsOnePerDocument(docs: seq<DocSnapshot>, now: int)
    ensures |DecodeChats(docs, now)| == |docs|
    ensures forall i :: 0 <= i < |docs| ==> DecodeChats(docs, now)[i] == DecodeChat(docs[i].id, docs[i].data, now)
  {
    FilterMapKeepsAll(docs, (d: DocSnapshot) => Some(DecodeChat(d.id, d.data, now)));
  }

  /** The query limit bounds the list: a snapshot of at most `pageSize`
      documents gives at most `pageSize` chats. */
  lemma ChatsWithinPageSize(docs: seq<DocSnapshot>, now: int, pageSize: nat)
    requires |docs| <= pageSize
    ensures |DecodeChats(docs, now)| <= pageSize
  {
    DecodeChatsOnePerDocument(docs, now);
  }

  /** What a snapshot writes to the cache, a later `loadCache` shows. */
  lemma CacheRoundTrip(entries: map<string, CacheEntry>, items: seq<ChatModel>)
    ensures CachedChats(entries[CacheKey := Encoded(items)]) == Some(items)
  {
  }
}
