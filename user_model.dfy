/** The user profile document of `Models/UserModel.swift`. */
module UserModels {
  import opened Wrappers
  import opened Documents

  /** The datatype constructor is the memberwise `init(id:name:age:location:bio:profileImageUrl:)`. */
  datatype UserModel = UserModel(
    id: string,
    name: string,
    age: int,
    location: string,
    bio: string,
    profileImageUrl: Option<string>)

  /** The fields `UserModel.init?` insists on. */
  predicate HasUserFields(d: Doc) {
    && GetStr(d, "name").Some?
    && GetInt(d, "age").Some?
    && GetStr(d, "location").Some?
    && GetStr(d, "bio").Some?
  }

  /** `UserModel.init?(id:data:)`: nil exactly when name, age, location or bio
      is missing or mistyped. The id is the document id, never a field; the
      image stays nil when absent. */
  function DecodeUser(id: string, data: Doc): (r: Option<UserModel>)
    ensures r.Some? <==> HasUserFields(data)
    ensures r.Some? ==> r.value.id == id
    ensures r.Some? ==> Some(r.value.name) == GetStr(data, "name") && Some(r.value.age) == GetInt(data, "age")
    ensures r.Some? ==> Some(r.value.location) == GetStr(data, "location") && Some(r.value.bio) == GetStr(data, "bio")
    ensures r.Some? ==> r.value.profileImageUrl == GetStr(data, "profileImageUrl")
  {
    if !HasUserFields(data) then None
    else Some(UserModel(
      id,
      GetStr(data, "name").value,
      GetInt(data, "age").value,
      GetStr(data, "location").value,
      GetStr(data, "bio").value,
      GetStr(data, "profileImageUrl")))
  }

  function UserOf(doc: DocSnapshot): Option<UserModel> {
    DecodeUser(doc.id, doc.data)
  }

  /** `UserModel.asDictionary`: five keys, the id is not among them, a nil image is written as "". */
  function UserToDoc(u: UserModel): (d: Doc)
    ensures d.Keys == {"name", "age", "location", "bio", "profileImageUrl"}
  {
    map[
      "name" := Str(u.name),
      "age" := Int(u.age),
      "location" := Str(u.location),
      "bio" := Str(u.bio),
      "profileImageUrl" := Str(u.profileImageUrl.GetOr(""))]
  }

  /** Saving and reading back yields the same user, except that a nil image
      comes back as "". */
  lemma UserReencoded(u: UserModel)
    ensures DecodeUser(u.id, UserToDoc(u)) == Some(u.(profileImageUrl := Some(u.profileImageUrl.GetOr(""))))
  {
  }

  lemma UserRoundTrip(u: UserModel)
    requires u.profileImageUrl.Some?
    ensures DecodeUser(u.id, UserToDoc(u)) == Some(u)
  {
    UserReencoded(u);
  }

  /** Fields the decoder does not look at (`isSuspended`, `blockedUsers`, ...)
      never change the decoded user. */
  lemma DecodeUserIgnoresOtherFields(id: string, data: Doc, key: string, v: Value)
    requires key !in {"name", "age", "location", "bio", "profileImageUrl"}
    ensures DecodeUser(id, data[key := v]) == DecodeUser(id, data)
  {
    assert GetStr(data[key := v], "name") == GetStr(data, "name");
    assert GetInt(data[key := v], "age") == GetInt(data, "age");
    assert GetStr(data[key := v], "location") == GetStr(data, "location");
    assert GetStr(data[key := v], "bio") == GetStr(data, "bio");
    assert GetStr(data[key := v], "profileImageUrl") == GetStr(data, "profileImageUrl");
  }
}
