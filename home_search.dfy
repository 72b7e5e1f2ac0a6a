/** The chat search of `HomeView.swift`: the query filter, the clear button,
    and which list the screen tests and which it draws. */
module HomeSearch {
  import opened Strings
  import opened Seqs
  import opened ChatModels
  import opened ChatList

  /** A chat matches when the lowercased query occurs in the lowercased
      sender name, receiver name or last message. `lower` stands for
      `String.lowercased()`. */
  predicate Matches(chat: ChatModel, query: string, lower: string -> string) {
    || IsSubstring(lower(query), lower(chat.senderName))
    || IsSubstring(lower(query), lower(chat.receiverName))
    || IsSubstring(lower(query), lower(chat.lastMessage))
  }

  /** The `filter` the `onChange` handler runs for a non-empty query. */
  function SearchResults(chats: seq<ChatModel>, query: string, lower: string -> string): (results: seq<ChatModel>)
    ensures |results| <= |chats|
    ensures forall c :: c in results ==> c in chats && Matches(c, query, lower)
  {
    Filter(chats, (c: ChatModel) => Matches(c, query, lower))
  }

  /** `chatList`: the filtered list while searching, else all chats. The
      empty-state test looks at this list. */
  function Shown(isSearching: bool, filteredChats: seq<ChatModel>, chats: seq<ChatModel>): seq<ChatModel> {
    if isSearching then filteredChats else chats
  }

  /** The rows the `ForEach` draws: none when `chatList` is empty, otherwise
      the full chat list, searching or not. */
  function RowsFor(isSearching: bool, filteredChats: seq<ChatModel>, chats: seq<ChatModel>): (rows: seq<ChatModel>)
    ensures rows == [] || rows == chats
    ensures !isSearching ==> rows == chats
    ensures isSearching && filteredChats != [] ==> rows == chats
  {
    if Shown(isSearching, filteredChats, chats) == [] then [] else chats
  }

  class HomeScreen {
    var searchText: string
    var isSearching: bool
    var filteredChats: seq<ChatModel>
    const viewModel: ChatViewModel

    constructor(viewModel: ChatViewModel)
      ensures this.viewModel == viewModel && searchText == "" && !isSearching && filteredChats == []
    {
      this.viewModel := viewModel;
      searchText := "";
      isSearching := false;
      filteredChats := [];
    }

    function ListShown(): seq<ChatModel>
      reads this, viewModel
    {
      Shown(isSearching, filteredChats, viewModel.chats)
    }

    function Rows(): seq<ChatModel>
      reads this, viewModel
    {
      RowsFor(isSearching, filteredChats, viewModel.chats)
    }

    /** Typing into the search field: the `onChange(of: searchText)` handler. */
    method EditSearchText(newValue: string, lower: string -> string)
      modifies this
      ensures searchText == newValue
      ensures newValue == "" ==> !isSearching && filteredChats == []
      ensures newValue != "" ==> isSearching && filteredChats == SearchResults(viewModel.chats, newValue, lower)
    {
      searchText := newValue;
      if newValue == "" {
        isSearching := false;
        filteredChats := [];
      } else {
        isSearching := true;
        filteredChats := Filter(viewModel.chats, (c: ChatModel) => Matches(c, newValue, lower));
      }
    }

    /** The clear button resets the query, the flag and the results together. */
    method ClearSearch()
      modifies this
      ensures searchText == "" && !isSearching && filteredChats == []
      ensures ListShown() == viewModel.chats
    {
      searchText := "";
      isSearching := false;
      filteredChats := [];
    }

    /** A chat snapshot arriving while the screen is up: the chat list
        changes, the search results are not recomputed. */
    method ReceiveChats(registration: nat, event: ChatEvent, now: int)
      requires viewModel.Valid()
      modifies viewModel, viewModel.cache
      ensures viewModel.Valid()
      ensures searchText == old(searchText) && isSearching == old(isSearching) && filteredChats == old(filteredChats)
      ensures viewModel.listener == old(viewModel.listener) && viewModel.liveListeners == old(viewModel.liveListeners)
      ensures registration !in old(viewModel.liveListeners) ==>
        viewModel.chats == old(viewModel.chats) && viewModel.errorMessage == old(viewModel.errorMessage) &&
        viewModel.cache.entries == old(viewModel.cache.entries)
      ensures registration in old(viewModel.liveListeners) ==>
        match event
        case ListenerError(reason) =>
          viewModel.chats == old(viewModel.chats) && viewModel.errorMessage == "❌ Listener failed: " + reason &&
          viewModel.cache.entries == old(viewModel.cache.entries)
        case NoSnapshot =>
          viewModel.chats == old(viewModel.chats) && viewModel.errorMessage == "❌ No chat documents found" &&
          viewModel.cache.entries == old(viewModel.cache.entries)
        case Snapshot(docs) =>
          // the list is the new snapshot while the results stay the old matches
          && viewModel.chats == DecodeChats(docs, now)
          && viewModel.errorMessage == old(viewModel.errorMessage)
          && viewModel.cache.entries == old(viewModel.cache.entries)[CacheKey := Encoded(viewModel.chats)]
    {
      viewModel.OnChatsSnapshot(registration, event, now);
    }
  }

  // ------------------------------------------------------------ properties

  /** The results are exactly the matching chats, in list order. */
  lemma SearchResultsAreMatches(chats: seq<ChatModel>, query: string, lower: string -> string, c: ChatModel)
    ensures c in SearchResults(chats, query, lower) <==> c in chats && Matches(c, query, lower)
    ensures IsSubsequence(SearchResults(chats, query, lower), chats)
  {
    FilterMembers(chats, (c: ChatModel) => Matches(c, query, lower), c);
    FilterIsSubsequence(chats, (c: ChatModel) => Matches(c, query, lower));
  }

  /** The search ignores case: two queries that lowercase alike match the
      same chats. */
  lemma MatchIgnoresCase(chat: ChatModel, q1: string, q2: string, lower: string -> string)
    requires lower(q1) == lower(q2)
    ensures Matches(chat, q1, lower) <==> Matches(chat, q2, lower)
  {
  }

  /** What the screen draws for a search: nothing when no chat matches,
      otherwise every chat, matching or not. */
  lemma SearchRowsAsWritten(chats: seq<ChatModel>, query: string, lower: string -> string, other: ChatModel)
    requires other in chats && !Matches(other, query, lower)
    ensures SearchResults(chats, query, lower) != [] ==> other in RowsFor(true, SearchResults(chats, query, lower), chats)
    ensures SearchResults(chats, query, lower) == [] ==> RowsFor(true, SearchResults(chats, query, lower), chats) == []
  {
  }

  /** Drawing the list the empty-state test looks at, a search draws
      exactly the matching chats, in order. */
  lemma IntendedSearchRowsMatch(chats: seq<ChatModel>, query: string, lower: string -> string, c: ChatModel)
    ensures c in Shown(true, SearchResults(chats, query, lower), chats) <==> c in chats && Matches(c, query, lower)
    ensures IsSubsequence(Shown(true, SearchResults(chats, query, lower), chats), chats)
  {
    SearchResultsAreMatches(chats, query, lower, c);
  }
}
