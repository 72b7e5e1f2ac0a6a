/** The Explore list, `ViewModels/User/ExploreViewModel.swift`: every other
    user with a complete profile, minus anyone blocked in either direction. */
module Explore {
  import opened Wrappers
  import opened Documents
  import opened Seqs
  import opened UserModels
  import opened Backend

  const LoadFailedPrefix: string := "❌ Failed to load users: "

  /** `i` is the position of the first document with id `id`. */
  predicate IsFirstWithId(docs: seq<DocSnapshot>, id: string, i: int) {
    0 <= i < |docs| && docs[i].id == id && forall j :: 0 <= j < i ==> docs[j].id != id
  }

  /** `documents.first(where: { $0.documentID == id })`. */
  function FirstWithId(docs: seq<DocSnapshot>, id: string): (r: Option<DocSnapshot>)
    ensures r.Some? <==> exists i :: 0 <= i < |docs| && docs[i].id == id
    ensures r.Some? ==> exists i :: IsFirstWithId(docs, id, i) && docs[i] == r.value
  {
    if docs == [] then None
    else if docs[0].id == id then Some(docs[0])
    else
      var r := FirstWithId(docs[1..], id);
      if r.Some? then
        var i :| IsFirstWithId(docs[1..], id, i) && docs[1..][i] == r.value;
        assert IsFirstWithId(docs, id, i + 1);
        r
      else r
  }

  /** `first(where:)?["blocked"] as? [String] ?? []`: the listed user's own
      `blocked` list. */
  function TheirBlocked(docs: seq<DocSnapshot>, id: string): seq<string> {
    match FirstWithId(docs, id)
    case Some(d) => GetStrList(d.data, "blocked").GetOr([])
    case None => []
  }

  /** The filter of `fetchOtherUsers`: not me, not blocked by me, not
      blocking me. */
  predicate Visible(docs: seq<DocSnapshot>, currentUserId: string, myBlocked: seq<string>, u: UserModel) {
    && u.id != currentUserId
    && u.id !in myBlocked
    && currentUserId !in TheirBlocked(docs, u.id)
  }

  /** The list `fetchOtherUsers` shows for a listing of the users collection. */
  function ExploreList(docs: seq<DocSnapshot>, currentUserId: string, myBlocked: seq<string>): (listed: seq<UserModel>)
    ensures |listed| <= |docs|
    ensures forall u :: u in listed ==> u.id != currentUserId && u.id !in myBlocked
    ensures forall u :: u in listed ==> currentUserId !in TheirBlocked(docs, u.id)
  {
    Filter(FilterMap(docs, UserOf), (u: UserModel) => Visible(docs, currentUserId, myBlocked, u))
  }

  class ExploreViewModel {
    var users: seq<UserModel>
    var errorMessage: string
    const db: Database

    constructor(db: Database)
      ensures this.db == db && users == [] && errorMessage == ""
    {
      this.db := db;
      users := [];
      errorMessage := "";
    }

    /** `fetchOtherUsers(currentUserId:)`: reads my `blocked` list, then lists
        every user; either read failing keeps `users` and sets the error. */
    method FetchOtherUsers(currentUserId: string, meRead: Step, listing: QueryResult)
      modifies this
      ensures meRead.Failed? ==> users == old(users) && errorMessage == LoadFailedPrefix + meRead.reason
      ensures meRead.Ok? && listing.QueryFailed? ==>
        users == old(users) && errorMessage == LoadFailedPrefix + listing.reason
      ensures meRead.Ok? && listing.Documents? ==>
        users == ExploreList(listing.docs, currentUserId, BlockedOf(db.store.users, currentUserId)) &&
        errorMessage == old(errorMessage)
    {
      if meRead.Failed? {
        errorMessage := LoadFailedPrefix + meRead.reason;
        return;
      }
      var myBlocked := BlockedOf(db.store.users, currentUserId);
      match listing {
        case QueryFailed(reason) =>
          errorMessage := LoadFailedPrefix + reason;
        case Documents(docs) =>
          var allUsers := FilterMap(docs, UserOf);
          users := Filter(allUsers, (u: UserModel) => Visible(docs, currentUserId, myBlocked, u));
      }
    }
  }

  // ------------------------------------------------------------ properties

  /** A user is listed exactly when a document decodes to them and they pass
      the filter: never me, never someone I blocked, never someone whose
      own document blocks me. */
  lemma ExploreMembers(docs: seq<DocSnapshot>, currentUserId: string, myBlocked: seq<string>, u: UserModel)
    ensures u in ExploreList(docs, currentUserId, myBlocked) <==>
      (exists i :: 0 <= i < |docs| && UserOf(docs[i]) == Some(u)) && Visible(docs, currentUserId, myBlocked, u)
  {
    var p := (u: UserModel) => Visible(docs, currentUserId, myBlocked, u);
    FilterMembers(FilterMap(docs, UserOf), p, u);
    FilterMapMembers(docs, UserOf, u);
  }

  /** When the first document with a user's id blocks me, that user is not
      listed. */
  lemma BlockersHidden(docs: seq<DocSnapshot>, currentUserId: string, myBlocked: seq<string>, i: int, u: UserModel)
    requires IsFirstWithId(docs, u.id, i)
    requires currentUserId in GetStrList(docs[i].data, "blocked").GetOr([])
    ensures u !in ExploreList(docs, currentUserId, myBlocked)
  {
    var r := FirstWithId(docs, u.id);
    var k :| IsFirstWithId(docs, u.id, k) && docs[k] == r.value;
    assert k == i;
    ExploreMembers(docs, currentUserId, myBlocked, u);
  }

  /** The list keeps the order of the decoded users it is drawn from. */
  lemma ExploreKeepsOrder(docs: seq<DocSnapshot>, currentUserId: string, myBlocked: seq<string>)
    ensures IsSubsequence(ExploreList(docs, currentUserId, myBlocked), FilterMap(docs, UserOf))
  {
    FilterIsSubsequence(FilterMap(docs, UserOf), (u: UserModel) => Visible(docs, currentUserId, myBlocked, u));
  }
}
