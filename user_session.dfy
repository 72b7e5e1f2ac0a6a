/** The signed-in user's session, `ViewModels/Shared/UserSession.swift`: the
    Auth identity, the profile fields read from the user document, and the
    completeness test that decides whether the profile editor comes first. */
module Session {
  import opened Wrappers
  import opened Documents
  import opened UserModels
  import opened Backend

  /** What the app reads from a FirebaseAuth `User`. */
  datatype AuthUser = AuthUser(uid: string, email: Option<string>, displayName: Option<string>)

  /** The profile fields of the session. */
  datatype Profile = Profile(name: string, age: int, location: string, bio: string, profileImageUrl: Option<string>)

  /** The profile `loadUserProfileFromFirestore` reads from a document: each
      field that is missing or mistyped falls back to ""/0/nil. */
  function LoadedProfile(d: Doc): (p: Profile)
    ensures GetStr(d, "name") == Some(p.name) || (GetStr(d, "name").None? && p.name == "")
    ensures GetInt(d, "age") == Some(p.age) || (GetInt(d, "age").None? && p.age == 0)
    ensures GetStr(d, "location") == Some(p.location) || (GetStr(d, "location").None? && p.location == "")
    ensures GetStr(d, "bio") == Some(p.bio) || (GetStr(d, "bio").None? && p.bio == "")
    ensures p.profileImageUrl == GetStr(d, "profileImageUrl")
  {
    Profile(
      GetStr(d, "name").GetOr(""),
      GetInt(d, "age").GetOr(0),
      GetStr(d, "location").GetOr(""),
      GetStr(d, "bio").GetOr(""),
      GetStr(d, "profileImageUrl"))
  }

  /** `hasCompletedProfile()`: name, location and bio filled in, and a
      positive age. */
  predicate Completed(p: Profile) {
    p.name != "" && p.age > 0 && p.location != "" && p.bio != ""
  }

  class UserSession {
    var isProfileLoaded: bool
    var uid: string
    var email: string
    var displayName: string
    var token: string
    var profile: Profile
    const db: Database

    constructor(db: Database)
      ensures this.db == db && !isProfileLoaded
      ensures uid == "" && email == "" && displayName == "" && token == ""
      ensures profile == Profile("", 0, "", "", None)
    {
      this.db := db;
      isProfileLoaded := false;
      uid := "";
      email := "";
      displayName := "";
      token := "";
      profile := Profile("", 0, "", "", None);
    }

    predicate HasCompletedProfile()
      reads this
    {
      Completed(profile)
    }

    /** `loadFromFirebaseUser(_:)`, without the token callback: the uid, and
        "" for a missing email or display name. */
    method LoadFromFirebaseUser(user: AuthUser)
      modifies this
      ensures uid == user.uid && email == user.email.GetOr("") && displayName == user.displayName.GetOr("")
      ensures token == old(token) && profile == old(profile) && isProfileLoaded == old(isProfileLoaded)
    {
      uid := user.uid;
      email := user.email.GetOr("");
      displayName := user.displayName.GetOr("");
    }

    /** `loadUserProfileFromFirestore()`: a failed read or a missing document
        changes nothing; otherwise the profile is read leniently and marked
        loaded. */
    method LoadUserProfileFromFirestore(read: Step)
      modifies this
      ensures uid == old(uid) && email == old(email) && displayName == old(displayName) && token == old(token)
      ensures read.Failed? || uid !in db.store.users ==> profile == old(profile) && isProfileLoaded == old(isProfileLoaded)
      ensures read.Ok? && uid in db.store.users ==> profile == LoadedProfile(db.store.users[uid]) && isProfileLoaded
    {
      if read.Failed? || uid !in db.store.users {
        return;
      }
      var data := db.store.users[uid];
      profile := Profile(
        GetStr(data, "name").GetOr(""),
        GetInt(data, "age").GetOr(0),
        GetStr(data, "location").GetOr(""),
        GetStr(data, "bio").GetOr(""),
        GetStr(data, "profileImageUrl"));
      isProfileLoaded := true;
    }

    /** `clear()`: every identity and profile field back to its initial value,
        so the profile is no longer complete; `isProfileLoaded` is kept. */
    method Clear()
      modifies this
      ensures uid == "" && email == "" && displayName == "" && token == ""
      ensures profile == Profile("", 0, "", "", None)
      ensures !HasCompletedProfile()
      ensures isProfileLoaded == old(isProfileLoaded)
    {
      uid := "";
      email := "";
      displayName := "";
      token := "";
      profile := Profile("", 0, "", "", None);
    }
  }

  // ------------------------------------------------------------ properties

  /** A profile loaded as complete comes from a document `UserModel.init?`
      accepts, with the same fields. */
  lemma CompletedLoadDecodes(id: string, d: Doc)
    requires Completed(LoadedProfile(d))
    ensures DecodeUser(id, d).Some?
    ensures var u := DecodeUser(id, d).value;
      LoadedProfile(d) == Profile(u.name, u.age, u.location, u.bio, u.profileImageUrl)
  {
  }

  /** After a load, `hasCompletedProfile()` holds exactly when the stored
      document has a non-empty name, location and bio and a positive `Int`
      age: a missing or mistyped field never counts as filled in. */
  lemma CompleteExactlyWhenStoredFilled(d: Doc)
    ensures Completed(LoadedProfile(d)) <==>
      && GetStr(d, "name").Some? && GetStr(d, "name").value != ""
      && GetInt(d, "age").Some? && GetInt(d, "age").value > 0
      && GetStr(d, "location").Some? && GetStr(d, "location").value != ""
      && GetStr(d, "bio").Some? && GetStr(d, "bio").value != ""
  {
  }

  /** Loading a document the profile editor saved gives back what was
      entered, so the profile counts as complete exactly when the entries
      were. */
  lemma SavedProfileLoads(u: UserModel)
    ensures LoadedProfile(UserToDoc(u)) == Profile(u.name, u.age, u.location, u.bio, Some(u.profileImageUrl.GetOr("")))
    ensures Completed(LoadedProfile(UserToDoc(u))) <==> u.name != "" && u.age > 0 && u.location != "" && u.bio != ""
  {
  }
}
