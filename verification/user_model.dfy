/** The User document: its shape, the defaults of a new user, and `toJSON`,
    which strips the secret keys from the document's raw field map in place. */
module UserModel {
  import opened Common

  /** A user document. The profile fields are optional because an update can
      write `undefined` into them. */
  datatype User = User(
    name: Option<string>,
    email: Option<string>,
    password: Option<string>,
    pastEvents: seq<Id>,
    futureEvents: seq<Id>,
    avatarUrl: Option<string>,
    location: Option<Location>,
    biography: Option<string>)

  /** `User.create({ name, email, password })`: empty event lists,
      `avatarUrl` and `biography` defaulted to the empty string, and a
      `location` holding only the empty `coordinates` array, the default the
      store gives every array path, nested ones included. */
  function NewUser(name: Option<string>, email: Option<string>, password: Option<string>): (u: User)
    ensures u.name == name && u.email == email && u.password == password
    ensures u.futureEvents == [] && u.pastEvents == []
    ensures u.avatarUrl == Some("") && u.biography == Some("")
    ensures u.location == Some(Location(None, []))
  {
    User(name, email, password, [], [], Some(""), Some(Location(None, [])), Some(""))
  }

  /** A value held under one key of a document's raw field map. */
  datatype Field = Text(text: string) | Ids(ids: seq<Id>) | Place(place: Location) | Flag(flag: bool)

  /** The keys `toJSON` removes. */
  const SecretKeys: set<string> := {"password", "isDeleted"}

  /** The raw field map (`_doc`) of a user document; undefined fields have no key. */
  function RawFields(u: User): map<string, Field> {
    var texts := map k | k in {"name", "email", "password", "avatarUrl", "biography"} &&
                         TextField(u, k).Some? :: Text(TextField(u, k).value);
    var lists := map["pastEvents" := Ids(u.pastEvents), "futureEvents" := Ids(u.futureEvents)];
    var place := if u.location.Some? then map["location" := Place(u.location.value)] else map[];
    texts + lists + place
  }

  function TextField(u: User, key: string): Option<string> {
    if key == "name" then u.name
    else if key == "email" then u.email
    else if key == "password" then u.password
    else if key == "avatarUrl" then u.avatarUrl
    else if key == "biography" then u.biography
    else None
  }

  /** What is left of a field map once the secret keys are deleted. */
  function WithoutSecrets(doc: map<string, Field>): (r: map<string, Field>)
    ensures "password" !in r && "isDeleted" !in r
    ensures forall k :: k in doc && k !in SecretKeys ==> k in r && r[k] == doc[k]
    ensures r.Keys <= doc.Keys
  {
    doc - SecretKeys
  }

  /** A loaded user document, as the object whose `toJSON` runs. */
  class UserDocument {
    var doc: map<string, Field>

    constructor Load(u: User)
      ensures doc == RawFields(u)
    {
      doc := RawFields(u);
    }

    /** `toJSON`: deletes `password` and `isDeleted` from the document's own
        field map and returns that same map. */
    method ToJSON() returns (json: map<string, Field>)
      modifies this
      ensures doc == WithoutSecrets(old(doc))
      ensures json == doc
    {
      doc := doc - {"password"};
      doc := doc - {"isDeleted"};
      json := doc;
    }
  }

  /** The serialized user keeps every public field of the document unchanged
      and never carries the password. */
  lemma SerializedUserKeepsProfile(u: User)
    ensures "password" !in WithoutSecrets(RawFields(u))
    ensures u.email.Some? ==> WithoutSecrets(RawFields(u))["email"] == Text(u.email.value)
    ensures u.name.Some? ==> WithoutSecrets(RawFields(u))["name"] == Text(u.name.value)
    ensures WithoutSecrets(RawFields(u))["futureEvents"] == Ids(u.futureEvents)
    ensures WithoutSecrets(RawFields(u))["pastEvents"] == Ids(u.pastEvents)
    ensures u.location.Some? ==> WithoutSecrets(RawFields(u))["location"] == Place(u.location.value)
  {
    var raw := RawFields(u);
    assert "futureEvents" in raw && raw["futureEvents"] == Ids(u.futureEvents);
    assert "pastEvents" in raw && raw["pastEvents"] == Ids(u.pastEvents);
    if u.email.Some? {
      assert TextField(u, "email") == u.email;
      assert "email" in raw && raw["email"] == Text(u.email.value);
    }
    if u.name.Some? {
      assert TextField(u, "name") == u.name;
      assert "name" in raw && raw["name"] == Text(u.name.value);
    }
  }
}
