/** The in-memory user repository: a dict from user id to user. */
module UserRepo {
  import opened Common
  import opened Seqs
  import opened PyDict
  import opened Entities

  class DummyUserRepository {
    var users: Dict<Uuid, User>

    /** The dict is well formed and every user is stored under its own id. */
    ghost predicate Valid()
      reads this
    {
      users.Valid() && forall id :: id in users.entries ==> users.entries[id].id == id
    }

    constructor ()
      ensures Valid() && users.entries == map[]
    {
      users := Empty();
    }

    function GetById(userId: Uuid): (r: Option<User>)
      reads this
      requires Valid()
      ensures r.Some? <==> userId in users.entries
      ensures r.Some? ==> r.value == users.entries[userId] && r.value.id == userId
    {
      users.Get(userId)
    }

    /** The first user in insertion order with that username. */
    function GetByUsername(username: string): (r: Option<User>)
      reads this
      requires Valid()
      ensures r.None? <==> forall u :: u in users.entries.Values ==> u.username != username
      ensures r.Some? ==> r.value.username == username &&
                          r.value.id in users.entries && users.entries[r.value.id] == r.value
    {
      var p := (u: User) => u.username == username;
      FirstValue(users, p);
      First(users.Values(), p)
    }

    /** The first user in insertion order whose email is `email` and verified. */
    function GetByEmail(email: string): (r: Option<User>)
      reads this
      requires Valid()
      ensures r.None? <==> forall u :: u in users.entries.Values ==> !(u.email == Some(email) && u.emailVerified)
      ensures r.Some? ==> r.value.email == Some(email) && r.value.emailVerified &&
                          r.value.id in users.entries && users.entries[r.value.id] == r.value
    {
      var p := (u: User) => u.email == Some(email) && u.emailVerified;
      FirstValue(users, p);
      First(users.Values(), p)
    }

    function GetAll(): (r: seq<User>)
      reads this
      requires Valid()
      ensures forall u :: u in r <==> u in users.entries.Values
      ensures |r| == |users.entries|
    {
      ValuesAreStored(users);
      SizeIsNumberOfKeys(users);
      users.Values()
    }

    /** Upsert by id; uniqueness of username or email is not enforced. */
    method Create(user: User) returns (r: User)
      requires Valid()
      modifies this
      ensures Valid()
      ensures users == old(users).Put(user.id, user)
      ensures GetById(user.id) == Some(user) && r == user
    {
      users := users.Put(user.id, user);
      r := user;
    }

    /** The same upsert as `Create`. */
    method Update(user: User) returns (r: User)
      requires Valid()
      modifies this
      ensures Valid()
      ensures users == old(users).Put(user.id, user)
      ensures GetById(user.id) == Some(user) && r == user
    {
      users := users.Put(user.id, user);
      r := user;
    }

    method UpdateLastRefreshJti(userId: Uuid, jti: Option<string>)
      requires Valid()
      modifies this
      ensures Valid()
      ensures userId in old(users.entries) ==>
                users == old(users).Put(userId, old(users.entries)[userId].(lastRefreshJti := jti)) &&
                users.entries == old(users.entries)[userId := old(users.entries)[userId].(lastRefreshJti := jti)]
      ensures userId !in old(users.entries) ==> users == old(users)
    {
      var user := users.Get(userId);
      if user.Some? {
        users := users.Put(userId, user.value.(lastRefreshJti := jti));
      }
    }

    method UpdateAvatarUrl(userId: Uuid, avatarUrl: Option<string>)
      requires Valid()
      modifies this
      ensures Valid()
      ensures userId in old(users.entries) ==>
                users == old(users).Put(userId, old(users.entries)[userId].(avatarUrl := avatarUrl)) &&
                users.entries == old(users.entries)[userId := old(users.entries)[userId].(avatarUrl := avatarUrl)]
      ensures userId !in old(users.entries) ==> users == old(users)
    {
      var user := users.Get(userId);
      if user.Some? {
        users := users.Put(userId, user.value.(avatarUrl := avatarUrl));
      }
    }

    /** The in-memory store takes no lock: the same lookup as `GetById`. */
    function GetForUpdate(userId: Uuid): (r: Option<User>)
      reads this
      requires Valid()
      ensures r.Some? <==> userId in users.entries
      ensures r.Some? ==> r.value == users.entries[userId] && r.value.id == userId
    {
      GetById(userId)
    }

    /** `pop(user.id, None)`: an absent id leaves the store as it was. */
    method Delete(user: User)
      requires Valid()
      modifies this
      ensures Valid()
      ensures users == old(users).Pop(user.id)
      ensures users.entries == old(users.entries) - {user.id}
      ensures user.id !in old(users.entries) ==> users == old(users)
    {
      users := users.Pop(user.id);
    }
  }
}
