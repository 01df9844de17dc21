/** The user store: a module-level array of users, appended to on sign-up
    and by the admin seed, looked up by id or by case-insensitive email. */
module Users {
  import opened Seqs
  import opened Text
  import opened Model

  const AdminEmail: string := "admin@example.com"

  function HasUserId(id: string): User -> bool
  {
    (u: User) => u.id == id
  }

  function HasEmail(email: string): User -> bool
  {
    (u: User) => u.email == email
  }

  function HasEmailIgnoringCase(email: string): User -> bool
  {
    (u: User) => ToLower(u.email) == ToLower(email)
  }

  /** The admin record the seed creates. */
  function SeedAdminRecord(id: string, now: int): User
  {
    User(id, "Admin User", AdminEmail, "", Admin, now)
  }

  /** The store after `seedAdmin`: unchanged when a user with exactly the
      admin e-mail exists, otherwise extended by one admin. */
  function SeededUsers(us: seq<User>, id: string, now: int): (r: seq<User>)
    ensures exists j :: 0 <= j < |r| && r[j].email == AdminEmail
    ensures (exists j :: 0 <= j < |us| && us[j].email == AdminEmail) ==> r == us
    ensures (forall j :: 0 <= j < |us| ==> us[j].email != AdminEmail) ==>
              r == us + [User(id, "Admin User", AdminEmail, "", Admin, now)]
  {
    if Find(us, HasEmail(AdminEmail)).Some? then us
    else
      var r := us + [SeedAdminRecord(id, now)];
      assert r[|us|].email == AdminEmail;
      r
  }

  /** Seeding twice, whatever ids and clocks the two calls see, leaves the
      store as seeding once did. */
  lemma SeedAdminIdempotent(us: seq<User>, id1: string, now1: int, id2: string, now2: int)
    ensures SeededUsers(SeededUsers(us, id1, now1), id2, now2) == SeededUsers(us, id1, now1)
  {
    var once := SeededUsers(us, id1, now1);
    var j :| 0 <= j < |once| && once[j].email == AdminEmail;
    assert HasEmail(AdminEmail)(once[j]);
  }

  class UserRepository {
    var users: seq<User>

    constructor()
      ensures users == []
    {
      users := [];
    }

    /** `seedAdmin`: creates the admin account unless one with the admin
        e-mail already exists. */
    method SeedAdmin(id: string, now: int)
      modifies this
      ensures users == SeededUsers(old(users), id, now)
    {
      var exists_ := Find(users, HasEmail(AdminEmail));
      if exists_.Some? {
        return;
      }
      var admin := SeedAdminRecord(id, now);
      users := users + [admin];
    }

    /** `createUser`: appends exactly one user, a customer unless a role is
        given; existing users are untouched. */
    method CreateUser(id: string, name: string, email: string, passwordHash: string,
                      role: Option<Role>, now: int) returns (u: User)
      modifies this
      ensures u == User(id, name, email, passwordHash,
                        if role.Some? then role.value else Customer, now)
      ensures users == old(users) + [u]
    {
      u := User(id, name, email, passwordHash, if role.Some? then role.value else Customer, now);
      users := users + [u];
    }

    /** `findByEmail`: the first user whose e-mail equals the query when both
        are lower-cased. */
    function FindByEmail(email: string): (r: Option<User>)
      reads this
      ensures r.None? <==> forall j :: 0 <= j < |users| ==> ToLower(users[j].email) != ToLower(email)
      ensures r.Some? ==> r.value in users && ToLower(r.value.email) == ToLower(email)
      ensures r.Some? ==> FirstIndex(users, HasEmailIgnoringCase(email)).Some?
                          && r.value == users[FirstIndex(users, HasEmailIgnoringCase(email)).value]
    {
      Find(users, HasEmailIgnoringCase(email))
    }

    /** `findById`: the first user with the id, or none. */
    function FindById(id: string): (r: Option<User>)
      reads this
      ensures r.None? <==> forall j :: 0 <= j < |users| ==> users[j].id != id
      ensures r.Some? ==> FirstIndex(users, HasUserId(id)).Some?
                          && r.value == users[FirstIndex(users, HasUserId(id)).value]
                          && r.value.id == id
    {
      Find(users, HasUserId(id))
    }
  }
}
