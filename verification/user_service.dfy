/** The user service as transitions of the collections: lookups by id and by
    email, the profile update, registration, and the user-deletion cascade. */
module UserService {
  import opened Common
  import opened EventModel
  import opened UserModel
  import opened Db

  const UserNotFound := "User not found"

  /** `doesUserExist(email)`: `User.findOne({ email })` found a document. */
  function DoesUserExist(db: Db, email: string): (r: bool)
    ensures r <==> exists u :: u in db.users && db.users[u].email == Some(email)
  {
    exists u | u in db.users :: db.users[u].email == Some(email)
  }

  function GetUserById(db: Db, userId: Id): (r: Result<User>)
    ensures r.Ok? <==> userId in db.users
    ensures r.Ok? ==> r.value == db.users[userId]
    ensures r.Error? ==> r.message == UserNotFound
  {
    if userId in db.users then Ok(db.users[userId]) else Error(UserNotFound)
  }

  /** The four profile fields `updateUserById` copies from the request body;
      `None` is a field the body does not carry. */
  datatype ProfileInfo = ProfileInfo(
    name: Option<string>,
    biography: Option<string>,
    avatarUrl: Option<string>,
    location: Option<Location>)

  /** The `forEach` over the allowed fields: absent ones become `undefined`. */
  function AssignProfile(u: User, info: ProfileInfo): (r: User)
    ensures r.name == info.name && r.biography == info.biography
    ensures r.avatarUrl == info.avatarUrl && r.location == info.location
    ensures r.email == u.email && r.password == u.password
    ensures r.futureEvents == u.futureEvents && r.pastEvents == u.pastEvents
  {
    u.(name := info.name, biography := info.biography,
       avatarUrl := info.avatarUrl, location := info.location)
  }

  /** The names in `updateUserById`'s `allowedFields` list. */
  datatype ProfileKey = NameKey | BiographyKey | AvatarUrlKey | LocationKey

  const ProfileFields: seq<ProfileKey> := [NameKey, BiographyKey, AvatarUrlKey, LocationKey]

  /** `user[field] = updatedInfo[field]` for one field. */
  function SetProfileField(u: User, info: ProfileInfo, k: ProfileKey): User {
    match k
    case NameKey => u.(name := info.name)
    case BiographyKey => u.(biography := info.biography)
    case AvatarUrlKey => u.(avatarUrl := info.avatarUrl)
    case LocationKey => u.(location := info.location)
  }

  /** Field `k` of `u` holds either the request's value or the old one. */
  predicate ProfileFieldIs(u: User, source: User, info: ProfileInfo, k: ProfileKey, copied: bool) {
    match k
    case NameKey => u.name == (if copied then info.name else source.name)
    case BiographyKey => u.biography == (if copied then info.biography else source.biography)
    case AvatarUrlKey => u.avatarUrl == (if copied then info.avatarUrl else source.avatarUrl)
    case LocationKey => u.location == (if copied then info.location else source.location)
  }

  /** The `allowedFields.forEach` loop of `updateUserById`: the four profile
      fields are copied from the request, and no other field is touched. */
  method CopyProfileFields(u: User, info: ProfileInfo) returns (r: User)
    ensures r == AssignProfile(u, info)
  {
    r := u;
    for i := 0 to |ProfileFields|
      invariant forall k :: ProfileFieldIs(r, u, info, k, k in ProfileFields[..i])
      invariant r.email == u.email && r.password == u.password
      invariant r.pastEvents == u.pastEvents && r.futureEvents == u.futureEvents
    {
      assert ProfileFields[..i + 1] == ProfileFields[..i] + [ProfileFields[i]];
      r := SetProfileField(r, info, ProfileFields[i]);
    }
    forall k ensures ProfileFieldIs(r, u, info, k, true) {
      assert ProfileFieldIs(r, u, info, k, k in ProfileFields[..|ProfileFields|]);
      assert ProfileFields[..|ProfileFields|] == ProfileFields;
      match k
      case NameKey => assert ProfileFields[0] == k;
      case BiographyKey => assert ProfileFields[1] == k;
      case AvatarUrlKey => assert ProfileFields[2] == k;
      case LocationKey => assert ProfileFields[3] == k;
    }
    assert ProfileFieldIs(r, u, info, NameKey, true) && ProfileFieldIs(r, u, info, BiographyKey, true);
    assert ProfileFieldIs(r, u, info, AvatarUrlKey, true) && ProfileFieldIs(r, u, info, LocationKey, true);
  }

  function UpdateUserById(db: Db, userId: Id, info: ProfileInfo): (s: Step<User>)
    ensures userId !in db.users ==> s == Step(Error(UserNotFound), db)
    ensures userId in db.users ==> s.result.Ok?
    ensures s.result.Ok? ==>
      && s.db == db.(users := db.users[userId := s.result.value])
      && s.result.value.name == info.name && s.result.value.biography == info.biography
      && s.result.value.avatarUrl == info.avatarUrl && s.result.value.location == info.location
      && s.result.value.email == db.users[userId].email
      && s.result.value.password == db.users[userId].password
      && s.result.value.futureEvents == db.users[userId].futureEvents
      && s.result.value.pastEvents == db.users[userId].pastEvents
  {
    match GetUserById(db, userId)
    case Error(m) => Step(Error(m), db)
    case Ok(user) =>
      var saved := AssignProfile(user, info);
      Step(Ok(saved), db.(users := db.users[userId := saved]))
  }

  /** `deleteUser`: delete the user, delete the events it organizes, pull it
      from the attendee lists of the events that remain. Nothing else. */
  function DeleteUser(db: Db, userId: Id): (s: Step<()>)
    ensures userId !in db.users ==> s == Step(Error(UserNotFound), db)
    ensures s.result.Ok? <==> userId in db.users
    ensures s.result.Ok? ==>
      && s.db.users == db.users - {userId}
      && s.db.comments == db.comments
      && (forall e :: e in s.db.events <==> e in db.events && db.events[e].organizer != userId)
      && (forall e :: e in s.db.events ==> userId !in s.db.events[e].attendees)
      && (forall e :: e in s.db.events ==>
            s.db.events[e] == db.events[e].(attendees := Pull(db.events[e].attendees, userId)))
  {
    if GetUserById(db, userId).Error? then Step(Error(UserNotFound), db)
    else
      var db1 := db.(users := db.users - {userId});
      var db2 := db1.(events := map e | e in db1.events && db1.events[e].organizer != userId :: db1.events[e]);
      var db3 := db2.(events := map e | e in db2.events ::
                                  db2.events[e].(attendees := Pull(db2.events[e].attendees, userId)));
      Step(Ok(()), db3)
  }

  /** `createUser`: the new document has the given credentials and empty
      event lists; the other documents are untouched. */
  function CreateUser(db: Db, name: Option<string>, email: Option<string>, password: Option<string>,
                      newId: Id): (s: Step<Id>)
    requires newId !in db.users
    ensures s.result == Ok(newId)
    ensures s.db.events == db.events && s.db.comments == db.comments
    ensures s.db.users.Keys == db.users.Keys + {newId}
    ensures forall u :: u in db.users ==> s.db.users[u] == db.users[u]
    ensures s.db.users[newId].name == name && s.db.users[newId].email == email
    ensures s.db.users[newId].password == password
    ensures s.db.users[newId].futureEvents == [] && s.db.users[newId].pastEvents == []
  {
    Step(Ok(newId), db.(users := db.users[newId := NewUser(name, email, password)]))
  }

  /** After registration the email is known to `doesUserExist`. */
  lemma RegisteredEmailExists(db: Db, name: Option<string>, email: string, password: Option<string>, newId: Id)
    requires newId !in db.users
    ensures DoesUserExist(CreateUser(db, name, Some(email), password, newId).db, email)
  {
    var after := CreateUser(db, name, Some(email), password, newId).db;
    assert newId in after.users && after.users[newId].email == Some(email);
  }

  /** Deleting the only user with an email makes the email unknown. */
  lemma DeletedEmailIsGone(db: Db, userId: Id, email: string)
    requires userId in db.users && db.users[userId].email == Some(email)
    requires forall u :: u in db.users && u != userId ==> db.users[u].email != Some(email)
    ensures !DoesUserExist(DeleteUser(db, userId).db, email)
  {
  }

  /** The cascade is shallow: the comments on an event the deleted user
      organized, and other users' references to that event, remain. */
  lemma DeleteUserLeavesDanglingReferences()
    ensures
      var organizer := User(Some("o"), Some("o@x"), None, [], [10], Some(""), None, Some(""));
      var guest := User(Some("g"), Some("g@x"), None, [], [10], Some(""), None, Some(""));
      var party := Event(Some("party"), None, None, [1, 2], 1, Some(""), Some([]), Some(""), false);
      var db := Db(map[10 := party], map[1 := organizer, 2 := guest],
                   map[20 := Comment(Some("hi"), 2, 10)]);
      var s := DeleteUser(db, 1);
      && s.result.Ok?
      && 10 !in s.db.events
      && 2 in s.db.users && 10 in s.db.users[2].futureEvents
      && 20 in s.db.comments && s.db.comments[20].event == 10
  {
  }
}
