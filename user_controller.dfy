/** src/controller/userController.ts over the user collection, held as a map
    from id to record. The read-only lookups are functions of the map; the
    writes are methods of UserTable, which keeps the unique e-mail index. */
module UserController {
  import opened Common
  import opened Records

  /** `Partial<Omit<UserType, 'id'>>`: the paths an editUser call sets. */
  datatype UserPatch = UserPatch(
    name: Option<string>,
    email: Option<string>,
    image: Option<string>,
    passwordHash: Option<string>,
    socialMedia: Option<SocialMedia>,
    role: Option<Role>)

  function Pick<T>(given: Option<T>, current: T): T {
    if given.Some? then given.value else current
  }

  /** The user after the patch's paths are set (`$set` of each given path):
      a given path takes the patch's value, every other path and the id keep
      theirs. */
  function ApplyPatch(u: User, p: UserPatch): (r: User)
    ensures r.id == u.id
    ensures r.name == Pick(p.name, u.name) && r.email == Pick(p.email, u.email)
    ensures r.passwordHash == Pick(p.passwordHash, u.passwordHash)
    ensures r.socialMedia == Pick(p.socialMedia, u.socialMedia) && r.role == Pick(p.role, u.role)
    ensures p.image.Some? ==> r.image == p.image
    ensures p.image.None? ==> r.image == u.image
    ensures p == UserPatch(None, None, None, None, None, None) ==> r == u
  {
    u.(name := Pick(p.name, u.name),
       email := Pick(p.email, u.email),
       image := if p.image.Some? then p.image else u.image,
       passwordHash := Pick(p.passwordHash, u.passwordHash),
       socialMedia := Pick(p.socialMedia, u.socialMedia),
       role := Pick(p.role, u.role))
  }

  /** The projection `{name: true, socialMedia: true}` addSocialMedia asks
      for: the document's `_id`, `name` and `socialMedia`, nothing else. */
  datatype SocialView = SocialView(id: Id, name: string, socialMedia: SocialMedia)

  function View(u: User): (v: SocialView)
    ensures v.id == u.id && v.name == u.name && v.socialMedia == u.socialMedia
  {
    SocialView(u.id, u.name, u.socialMedia)
  }

  /** Two records with the same id, name and links give the same view, so the
      view tells nothing of the e-mail, image, password hash or role. */
  lemma ViewHidesTheRest(u: User, w: User)
    ensures View(u) == View(w) <==> u.id == w.id && u.name == w.name && u.socialMedia == w.socialMedia
  {
  }

  predicate KeyedById(users: map<Id, User>) {
    forall id | id in users :: users[id].id == id
  }

  /** The unique index on `email`. */
  predicate EmailsUnique(users: map<Id, User>) {
    forall a, b | a in users && b in users && a != b :: users[a].email != users[b].email
  }

  predicate EmailTaken(users: map<Id, User>, email: string) {
    exists id | id in users :: users[id].email == email
  }

  /** getUserByEmail: the user whose email is `email`, or null. */
  function GetUserByEmail(users: map<Id, User>, email: string): (r: Option<User>)
    requires KeyedById(users) && EmailsUnique(users)
    ensures r.Some? <==> EmailTaken(users, email)
    ensures r.Some? ==> r.value.email == email && r.value.id in users && users[r.value.id] == r.value
  {
    if EmailTaken(users, email) then
      var id :| id in users && users[id].email == email;
      Some(users[id])
    else None
  }

  /** getUser: the whole record for the id, passwordHash included, or null. */
  function GetUser(users: map<Id, User>, id: Id): (r: Option<User>)
    ensures r.Some? <==> id in users
    ensures r.Some? ==> r.value == users[id]
  {
    if id in users then Some(users[id]) else None
  }

  class UserTable {
    var users: map<Id, User>

    ghost predicate Valid()
      reads this
    {
      KeyedById(users) && EmailsUnique(users)
    }

    constructor ()
      ensures Valid() && users == map[]
    {
      users := map[];
    }

    /** createUser: `new User({name, email, passwordHash}).save()`. Validation
        runs first, then the unique index; a rejected save writes nothing. */
    method CreateUser(name: string, email: string, passwordHash: string, newId: Id)
      returns (r: Result<User, StoreError>)
      requires Valid() && newId !in users
      modifies this
      ensures Valid()
      ensures r.Ok? <==> name != "" && email != "" && passwordHash != "" && !EmailTaken(old(users), email)
      ensures r.Ok? ==>
        && r.value.id == newId && r.value.name == name && r.value.email == email
        && r.value.passwordHash == passwordHash && r.value.image == None
        && r.value.role == Normal && r.value.socialMedia == map[]
        && users == old(users)[newId := r.value]
      ensures r.Err? ==> users == old(users)
      ensures r.Err? ==> (r.error.code == Some(DuplicateKeyCode) <==> UserSchemaValid(NewUser(newId, name, email, passwordHash)))
    {
      var doc := NewUser(newId, name, email, passwordHash);
      var failures := UserValidationFailures(doc);
      UserValidationFailuresEmpty(doc);
      if failures != [] {
        r := Err(ValidationError("User", failures));
      } else if EmailTaken(users, email) {
        r := Err(DuplicateKeyError("email_1"));
      } else {
        users := users[newId := doc];
        r := Ok(doc);
      }
    }

    /** editUser: `findByIdAndUpdate(id, updateDoc)`. Answers with the record as
        it was before the update (the call does not ask for the new one); an
        e-mail already used by another user violates the unique index. */
    method EditUser(id: Id, patch: UserPatch) returns (r: Result<Option<User>, StoreError>)
      requires Valid()
      modifies this
      ensures Valid()
      ensures id !in old(users) ==> r == Ok(None) && users == old(users)
      ensures id in old(users) && patch.email.Some? && EmailTaken(old(users) - {id}, patch.email.value) ==>
        r.Err? && r.error.code == Some(DuplicateKeyCode) && users == old(users)
      ensures r.Ok? && r.value.Some? <==>
        id in old(users) && !(patch.email.Some? && EmailTaken(old(users) - {id}, patch.email.value))
      ensures r.Ok? && r.value.Some? ==>
        && id in old(users) && r.value.value == old(users)[id]
        && users == old(users)[id := ApplyPatch(old(users)[id], patch)]
    {
      if id !in users {
        r := Ok(None);
      } else if patch.email.Some? && EmailTaken(users - {id}, patch.email.value) {
        r := Err(DuplicateKeyError("email_1"));
      } else {
        var before := users[id];
        PatchKeepsEmailsUnique(users, id, patch);
        users := users[id := ApplyPatch(before, patch)];
        r := Ok(Some(before));
      }
    }

    /** deleteUser: `findOneAndDelete`; the removed record, or null. */
    method DeleteUser(id: Id) returns (r: Option<User>)
      requires Valid()
      modifies this
      ensures Valid()
      ensures r == GetUser(old(users), id)
      ensures users == old(users) - {id}
    {
      r := GetUser(users, id);
      users := users - {id};
    }

    /** addSocialMedia: sets `socialMedia.<type>` and nothing else; answers with
        the projection of the record as it was before the update, or null for
        an unknown id. */
    method AddSocialMedia(id: Id, platform: Platform, value: string) returns (r: Option<SocialView>)
      requires Valid()
      modifies this
      ensures Valid()
      ensures id in old(users) ==> r == Some(View(old(users)[id]))
      ensures id !in old(users) ==> r == None
      ensures id !in old(users) ==> users == old(users)
      ensures id in old(users) ==>
        users == old(users)[id := old(users)[id].(socialMedia := old(users)[id].socialMedia[platform := value])]
    {
      r := None;
      if id in users {
        var u := users[id];
        r := Some(View(u));
        var setObj := u.socialMedia[platform := value];
        users := users[id := u.(socialMedia := setObj)];
      }
    }
  }

  /** A successful addSocialMedia changes only the chosen platform's link. */
  lemma AddSocialKeepsOtherPlatforms(u: User, platform: Platform, value: string, other: Platform)
    requires other != platform
    ensures var v := u.(socialMedia := u.socialMedia[platform := value]);
            && v.socialMedia[platform] == value
            && (other in v.socialMedia <==> other in u.socialMedia)
            && (other in u.socialMedia ==> v.socialMedia[other] == u.socialMedia[other])
            && v.name == u.name && v.email == u.email && v.passwordHash == u.passwordHash
            && v.role == u.role && v.image == u.image
  {
  }

  /** A patch whose e-mail, if any, no other user has keeps the e-mail index intact. */
  lemma {:induction false} PatchKeepsEmailsUnique(users: map<Id, User>, id: Id, patch: UserPatch)
    requires EmailsUnique(users) && id in users
    requires patch.email.None? || !EmailTaken(users - {id}, patch.email.value)
    ensures EmailsUnique(users[id := ApplyPatch(users[id], patch)])
  {
    var after := users[id := ApplyPatch(users[id], patch)];
    forall a, b | a in after && b in after && a != b
      ensures after[a].email != after[b].email
    {
      if a != id && b != id {
        assert after[a].email == users[a].email;
        assert after[b].email == users[b].email;
      } else if patch.email.Some? {
        var other := if a == id then b else a;
        assert other in users - {id};
        assert after[other].email == users[other].email;
      }
    }
  }
}
