/** Profile editing, `ViewModels/User/UserProfileViewModel.swift`: saving the
    signed-in user's profile, with an optional photo, and the same block
    operations as the moderation view-model. */
module UserProfile {
  import opened Wrappers
  import opened Documents
  import opened UserModels
  import opened Backend
  import opened Moderation

  const NoUserMessage: string := "No logged in user"
  const UploadFailedPrefix: string := "⚠️ Image upload failed: "
  const SaveFailedPrefix: string := "❌ Firestore save failed: "

  /** The photo step: uploaded with its download URL, or the upload or the
      URL request threw. */
  datatype Upload = Uploaded(url: string) | UploadFailed(reason: string)

  /** The five-field document `saveUserProfile` writes. */
  function ProfileDoc(name: string, age: int, location: string, bio: string, profileImageUrl: string): Doc {
    map[
      "name" := Str(name),
      "age" := Int(age),
      "location" := Str(location),
      "bio" := Str(bio),
      "profileImageUrl" := Str(profileImageUrl)]
  }

  /** The image URL stored: "" when no photo was picked. */
  function ImageUrl(image: Option<Upload>): string
    requires image.None? || image.value.Uploaded?
  {
    if image.Some? then image.value.url else ""
  }

  class UserProfileViewModel {
    var isSaving: bool
    var errorMessage: string
    const db: Database

    constructor(db: Database)
      ensures this.db == db && !isSaving && errorMessage == ""
    {
      this.db := db;
      isSaving := false;
      errorMessage := "";
    }

    /** `saveUserProfile(name:age:location:bio:image:)`. `image` is None when
        no photo was picked. Without a uid, or when the upload fails, nothing
        is written; otherwise the user document is replaced by the five
        profile fields. `isSaving` is false on every exit. */
    method SaveUserProfile(uid: Option<string>, name: string, age: int, location: string, bio: string,
                           image: Option<Upload>, write: Step)
      modifies this, db
      ensures !isSaving
      ensures uid.None? ==> db.store == old(db.store) && errorMessage == NoUserMessage
      ensures uid.Some? && image.Some? && image.value.UploadFailed? ==>
        db.store == old(db.store) && errorMessage == UploadFailedPrefix + image.value.reason
      ensures uid.Some? && (image.None? || image.value.Uploaded?) ==>
        var saved := ProfileDoc(name, age, location, bio, ImageUrl(image));
        if write.Ok? then db.store == old(db.store).Put(Users, uid.value, saved) && errorMessage == ""
        else db.store == old(db.store) && errorMessage == SaveFailedPrefix + write.reason
    {
      isSaving := true;
      errorMessage := "";
      if uid.None? {
        errorMessage := NoUserMessage;
        isSaving := false;
        return;
      }
      var profileImageUrl: string := "";
      if image.Some? {
        match image.value {
          case Uploaded(url) =>
            profileImageUrl := url;
          case UploadFailed(reason) =>
            errorMessage := UploadFailedPrefix + reason;
            isSaving := false;
            return;
        }
      }
      var userData := ProfileDoc(name, age, location, bio, profileImageUrl);
      if write.Ok? {
        db.SetData(Users, uid.value, userData);
      } else {
        errorMessage := SaveFailedPrefix + write.reason;
      }
      isSaving := false;
    }

    /** `blockUser(targetId:)`: the target joins the caller's `blocked` list;
        only a failure is reported. */
    method BlockUser(myId: Option<string>, targetId: string, write: Step)
      modifies this, db
      ensures isSaving == old(isSaving)
      ensures myId.None? ==> db.store == old(db.store) && errorMessage == old(errorMessage)
      ensures myId.Some? ==>
        var users := old(db.store.users);
        var err := UpdateError(users, myId.value, write);
        && db.store == old(db.store).(users := Updated(users, myId.value, BlockFields(users, myId.value, targetId), write))
        && errorMessage == (if err.None? then old(errorMessage) else BlockFailed + err.value)
    {
      if myId.None? {
        return;
      }
      var step := db.TryUpdate(Users, myId.value, BlockFields(db.store.users, myId.value, targetId), write);
      if step.Failed? {
        errorMessage := BlockFailed + step.reason;
      }
    }

    /** `unblockUser(targetId:)`: the target leaves the caller's `blocked` list. */
    method UnblockUser(myId: Option<string>, targetId: string, write: Step)
      modifies this, db
      ensures isSaving == old(isSaving)
      ensures myId.None? ==> db.store == old(db.store) && errorMessage == old(errorMessage)
      ensures myId.Some? ==>
        var users := old(db.store.users);
        var err := UpdateError(users, myId.value, write);
        && db.store == old(db.store).(users := Updated(users, myId.value, UnblockFields(users, myId.value, targetId), write))
        && errorMessage == (if err.None? then old(errorMessage) else UnblockFailed + err.value)
    {
      if myId.None? {
        return;
      }
      var step := db.TryUpdate(Users, myId.value, UnblockFields(db.store.users, myId.value, targetId), write);
      if step.Failed? {
        errorMessage := UnblockFailed + step.reason;
      }
    }

    /** `isBlockedBetween(currentId:targetId:)`: the same symmetric,
        fail-closed rule as the moderation view-model. */
    method IsBlockedBetween(currentId: string, targetId: string, meRead: Step, themRead: Step) returns (blocked: bool)
      ensures blocked == BlockedBetween(db.store.users, currentId, targetId, meRead, themRead)
    {
      if meRead.Failed? || themRead.Failed? {
        return true;
      }
      blocked := targetId in BlockedOf(db.store.users, currentId) || currentId in BlockedOf(db.store.users, targetId);
    }
  }

  // ------------------------------------------------------------ properties

  /** The saved document is `UserModel.asDictionary` of the profile, decodes
      back to it with the image URL present, and keeps no `blocked` list or
      `isSuspended` flag from before. */
  lemma SavedProfileDecodes(users: map<string, Doc>, uid: string, name: string, age: int, location: string, bio: string, url: string)
    ensures ProfileDoc(name, age, location, bio, url) == UserToDoc(UserModel(uid, name, age, location, bio, Some(url)))
    ensures DecodeUser(uid, ProfileDoc(name, age, location, bio, url)) == Some(UserModel(uid, name, age, location, bio, Some(url)))
    ensures BlockedOf(users[uid := ProfileDoc(name, age, location, bio, url)], uid) == []
    ensures GetBool(ProfileDoc(name, age, location, bio, url), "isSuspended").None?
  {
    UserRoundTrip(UserModel(uid, name, age, location, bio, Some(url)));
  }
}
