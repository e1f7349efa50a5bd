/** The `users` collection of src/models/user.model.ts: the user documents in the order the
    database returns them, by document id, looked up by id or by the first document whose email
    or username matches. */
module UserStore {
  import opened Wrappers
  import opened Types
  import opened Strings

  const UPDATE_USER_ERROR: string := "Error al actualizar usuario: "
  const DELETE_USER_ERROR: string := "Error al eliminar usuario: "

  function UserNotFound(id: string): string {
    "Usuario con ID '" + id + "' no encontrado"
  }

  /** What a user is looked up by: the document id, or a stored field. */
  datatype Key = Id | Email | Username {
    function Of(u: User): string {
      match this
      case Id => u.key
      case Email => u.email
      case Username => u.username
    }
  }

  /** The position of the first user whose `key` is `value`. */
  function FirstIndex(users: seq<User>, key: Key, value: string): (r: Option<nat>)
    ensures r.Some? ==> r.value < |users| && key.Of(users[r.value]) == value
    ensures r.Some? ==> forall k :: 0 <= k < r.value ==> key.Of(users[k]) != value
    ensures r.None? <==> forall k :: 0 <= k < |users| ==> key.Of(users[k]) != value
  {
    if users == [] then None
    else if key.Of(users[0]) == value then Some(0)
    else
      match FirstIndex(users[1..], key, value)
      case None => None
      case Some(i) => Some(i + 1)
  }

  /** The first user whose `key` is `value`, if any. */
  function FirstWith(users: seq<User>, key: Key, value: string): Option<User> {
    match FirstIndex(users, key, value)
    case None => None
    case Some(i) => Some(users[i])
  }

  /** The users of a role, in table order. */
  function WithRole(users: seq<User>, role: string): (r: seq<User>)
    ensures |r| <= |users|
  {
    if users == [] then []
    else
      var last := users[|users| - 1];
      WithRole(users[..|users| - 1], role) + (if last.role == role then [last] else [])
  }

  /** The by-role query keeps exactly the users of that role. */
  lemma {:induction false} WithRoleMembers(users: seq<User>, role: string)
    ensures forall u :: u in WithRole(users, role) <==> u in users && u.role == role
    decreases |users|
  {
    if users != [] {
      var init, last := users[..|users| - 1], users[|users| - 1];
      WithRoleMembers(init, role);
      assert users == init + [last];
    }
  }

  /** The stored form of a new user under the document id `id`: the given fields, active,
      created and updated now. */
  function NewUser(id: string, data: CreateUserData, now: string): User {
    User(id, id, data.email, data.password, data.username, data.role, true, now, Some(now),
         data.storeInfo, data.profile)
  }

  /** `updateDoc(ref, {...userData, updatedAt})`: the given fields overwrite, the update time is
      stamped, and the document keeps its id. A body's `id` is stored, and from then on shadows
      the document id in every read. */
  function Merge(u: User, d: UpdateUserData, now: string): User {
    User(u.key, d.id.GetOr(u.id), d.email.GetOr(u.email), d.password.GetOr(u.password),
         d.username.GetOr(u.username), d.role.GetOr(u.role), d.isActive.GetOr(u.isActive),
         d.createdAt.GetOr(u.createdAt), Some(now),
         if d.storeInfo.Some? then d.storeInfo else u.storeInfo,
         if d.profile.Some? then d.profile else u.profile)
  }

  /** Merging nothing only stamps the update time; merging the same change twice is merging it
      once; a later change wins over an earlier one; the document keeps its id, and the id it is
      read with and its creation time change only when the changes carry them. */
  lemma MergeSpec(u: User, d: UpdateUserData, e: UpdateUserData, t1: string, t2: string)
    ensures Merge(u, NoUserChanges, t1) == u.(updatedAt := Some(t1))
    ensures Merge(Merge(u, d, t1), d, t1) == Merge(u, d, t1)
    ensures e.email.Some? ==> Merge(Merge(u, d, t1), e, t2).email == e.email.value
    ensures Merge(u, d, t1).key == u.key
    ensures d.id.None? ==> Merge(u, d, t1).id == u.id
    ensures d.createdAt.None? ==> Merge(u, d, t1).createdAt == u.createdAt
  {
  }

  /** No two users share the value of `key`. */
  ghost predicate Unique(users: seq<User>, key: Key) {
    forall i, j :: 0 <= i < j < |users| ==> key.Of(users[i]) != key.Of(users[j])
  }

  /** The users are in document id order. */
  ghost predicate InKeyOrder(users: seq<User>) {
    forall i, j :: 0 <= i < j < |users| ==> Below(users[i].key, users[j].key)
  }

  lemma OrderedKeysAreUnique(users: seq<User>)
    requires InKeyOrder(users)
    ensures Unique(users, Id)
  {
    forall i, j | 0 <= i < j < |users|
      ensures users[i].key != users[j].key
    {
      BelowIrreflexive(users[i].key);
    }
  }

  /** The table with `u` added where its document id belongs. */
  function Insert(users: seq<User>, u: User): (r: seq<User>)
    ensures |r| == |users| + 1
    ensures forall v :: v in r <==> v == u || v in users
  {
    if users == [] || !Below(users[0].key, u.key) then [u] + users
    else
      assert users == [users[0]] + users[1..];
      [users[0]] + Insert(users[1..], u)
  }

  /** Inserting a user under a new document id keeps the table in id order. */
  lemma {:induction false} InsertKeepsOrder(users: seq<User>, u: User)
    requires InKeyOrder(users)
    requires forall v :: v in users ==> v.key != u.key
    ensures InKeyOrder(Insert(users, u))
    decreases |users|
  {
    if users == [] || !Below(users[0].key, u.key) {
      if users != [] {
        BelowTotal(users[0].key, u.key);
        forall j | 0 < j < |users|
          ensures Below(u.key, users[j].key)
        {
          BelowTransitive(u.key, users[0].key, users[j].key);
        }
      }
    } else {
      var rest := users[1..];
      assert forall v :: v in rest ==> v in users;
      InsertKeepsOrder(rest, u);
      var r := Insert(rest, u);
      forall k | 0 <= k < |r|
        ensures Below(users[0].key, r[k].key)
      {
        assert r[k] in r;
        if r[k] != u {
          var j :| 0 <= j < |rest| && rest[j] == r[k];
          assert users[j + 1] == r[k];
        }
      }
    }
  }

  /** Inserting a user whose `key` value no other user has keeps that value unique. */
  lemma {:induction false} InsertKeepsUnique(users: seq<User>, u: User, key: Key)
    requires Unique(users, key)
    requires forall v :: v in users ==> key.Of(v) != key.Of(u)
    ensures Unique(Insert(users, u), key)
    decreases |users|
  {
    if users != [] && Below(users[0].key, u.key) {
      var rest := users[1..];
      assert forall v :: v in rest ==> v in users;
      InsertKeepsUnique(rest, u, key);
      var r := Insert(rest, u);
      forall k | 0 <= k < |r|
        ensures key.Of(users[0]) != key.Of(r[k])
      {
        assert r[k] in r;
        if r[k] != u {
          var j :| 0 <= j < |rest| && rest[j] == r[k];
          assert users[j + 1] == r[k];
        }
      }
    }
  }

  /** Removing the first user with a given id. */
  function Without(users: seq<User>, i: nat): seq<User>
    requires i < |users|
  {
    users[..i] + users[i + 1..]
  }

  /** Removing the user at `i` keeps the table in id order and leaves exactly the users of
      the other documents. */
  lemma WithoutSpec(users: seq<User>, i: nat)
    requires i < |users| && InKeyOrder(users)
    ensures InKeyOrder(Without(users, i))
    ensures forall u :: u in Without(users, i) <==> u in users && u.key != users[i].key
  {
    OrderedKeysAreUnique(users);
    var w := Without(users, i);
    assert forall j :: 0 <= j < |w| ==> w[j] == users[if j < i then j else j + 1];
    forall u | u in users && u.key != users[i].key
      ensures u in w
    {
      var j :| 0 <= j < |users| && users[j] == u;
      assert w[if j < i then j else j - 1] == u;
    }
  }

  class UserTable {
    /** The user documents, in the order queries return them. */
    var users: seq<User>

    ghost predicate Valid()
      reads this
    {
      InKeyOrder(users)
    }

    constructor (initial: seq<User>)
      requires InKeyOrder(initial)
      ensures users == initial && Valid()
    {
      users := initial;
    }

    /** The scan behind `getUserById`, `getUserByEmail` and `getUserByUsername`. */
    method IndexOf(key: Key, value: string) returns (r: Option<nat>)
      ensures r == FirstIndex(users, key, value)
    {
      var i := 0;
      while i < |users|
        invariant 0 <= i <= |users|
        invariant forall k :: 0 <= k < i ==> key.Of(users[k]) != value
      {
        if key.Of(users[i]) == value {
          return Some(i);
        }
        i := i + 1;
      }
      return None;
    }

    /** `getAll`: every user, in table order. */
    method GetAll() returns (r: seq<User>)
      ensures r == users
    {
      r := [];
      var i := 0;
      while i < |users|
        invariant 0 <= i <= |users|
        invariant r == users[..i]
      {
        r := r + [users[i]];
        i := i + 1;
      }
    }

    /** `getUserById`: the user of the document with that id, or `null`. */
    method GetUserById(id: string) returns (r: Option<User>)
      requires Valid()
      ensures r.Some? <==> exists k :: 0 <= k < |users| && users[k].key == id
      ensures r.Some? ==> r.value in users && r.value.key == id
    {
      var i := IndexOf(Id, id);
      r := if i.Some? then Some(users[i.value]) else None;
    }

    /** `getUserByEmail`: the first user with that email, or `null`. */
    method GetUserByEmail(email: string) returns (r: Option<User>)
      ensures r == FirstWith(users, Email, email)
      ensures r.None? <==> forall u :: u in users ==> u.email != email
    {
      var i := IndexOf(Email, email);
      r := if i.Some? then Some(users[i.value]) else None;
    }

    /** `getUserByUsername`: the first user with that username, or `null`. */
    method GetUserByUsername(username: string) returns (r: Option<User>)
      ensures r == FirstWith(users, Username, username)
      ensures r.None? <==> forall u :: u in users ==> u.username != username
    {
      var i := IndexOf(Username, username);
      r := if i.Some? then Some(users[i.value]) else None;
    }

    /** `getUsersByRole`: the users of that role, in table order. */
    method GetUsersByRole(role: string) returns (r: seq<User>)
      ensures r == WithRole(users, role)
    {
      r := [];
      var i := 0;
      while i < |users|
        invariant 0 <= i <= |users|
        invariant r == WithRole(users[..i], role)
      {
        assert users[..i + 1][..i] == users[..i];
        if users[i].role == role {
          r := r + [users[i]];
        }
        i := i + 1;
      }
      assert users[..|users|] == users;
    }

    /** `createUser`: the new document, active and time-stamped, under a new id, which places
        it among the others. */
    method CreateUser(data: CreateUserData, newId: string, now: string) returns (id: string)
      requires Valid()
      requires forall u :: u in users ==> u.key != newId
      modifies this
      ensures Valid()
      ensures id == newId && users == Insert(old(users), NewUser(newId, data, now))
    {
      InsertKeepsOrder(users, NewUser(newId, data, now));
      users := Insert(users, NewUser(newId, data, now));
      id := newId;
    }

    /** `updateUser`: an unknown id fails and changes nothing; otherwise exactly that user is
        merged with the changes. */
    method UpdateUser(id: string, changes: UpdateUserData, now: string) returns (r: Result<()>)
      requires Valid()
      modifies this
      ensures Valid()
      ensures FirstIndex(old(users), Id, id).None? ==>
        r == Failure(UPDATE_USER_ERROR + UserNotFound(id)) && users == old(users)
      ensures FirstIndex(old(users), Id, id).Some? ==>
        var i := FirstIndex(old(users), Id, id).value;
        r.Success? && users == old(users)[i := Merge(old(users)[i], changes, now)]
    {
      var i := IndexOf(Id, id);
      if i.None? {
        return Failure(UPDATE_USER_ERROR + UserNotFound(id));
      }
      assert forall k :: 0 <= k < |users| ==> users[i.value := Merge(users[i.value], changes, now)][k].key == users[k].key;
      users := users[i.value := Merge(users[i.value], changes, now)];
      r := Success(());
    }

    /** `deleteUser`: an unknown id fails and changes nothing; otherwise exactly that user is
        removed. */
    method DeleteUser(id: string) returns (r: Result<()>)
      requires Valid()
      modifies this
      ensures Valid()
      ensures FirstIndex(old(users), Id, id).None? ==>
        r == Failure(DELETE_USER_ERROR + UserNotFound(id)) && users == old(users)
      ensures FirstIndex(old(users), Id, id).Some? ==>
        r.Success? && users == Without(old(users), FirstIndex(old(users), Id, id).value)
      ensures forall u :: u in users <==> u in old(users) && u.key != id
    {
      var i := IndexOf(Id, id);
      if i.None? {
        return Failure(DELETE_USER_ERROR + UserNotFound(id));
      }
      WithoutSpec(users, i.value);
      users := Without(users, i.value);
      r := Success(());
    }
  }
}
