/**
 * The user directory, as far as the orchestrator consults it: who owns an
 * instance, whether a user is an administrator, and the details a new
 * billing subscription is created for.
 */
module UserRepository {
  import opened Domain
  import Ordering

  datatype User = User(id: string, email: string, name: string, rol: string)

  class UserStore {
    var users: map<string, User>

    constructor (users: map<string, User>)
      ensures this.users == users
    {
      this.users := users;
    }
  }

  /**
   * `findOne({ _id: userId })`. A defined id finds the user stored under it.
   * An undefined id drops out of the filter, so the query is `findOne({})`
   * and matches whichever user Mongo returns first; the model takes the user
   * with the least id, the same choice as for other unsorted `findOne`s.
   * Only an empty directory then finds nobody.
   */
  function FindUser(users: map<string, User>, userId: Option<string>): (u: Option<User>)
    ensures u.Some? <==> if userId.Some? then userId.value in users else users != map[]
    ensures u.Some? && userId.Some? ==> u.value == users[userId.value]
    ensures u.Some? && userId.None? ==> u.value in users.Values
    ensures u.Some? && userId.None? ==> u.value == users[Ordering.Least(users.Keys)]
  {
    if userId.Some? then
      if userId.value in users then Some(users[userId.value]) else None
    else if users == map[] then None
    else
      var k := Ordering.Least(users.Keys);
      assert users[k] in users.Values;
      Some(users[k])
  }

  /** The user exists and has the role `admin`. */
  predicate IsAdmin(users: map<string, User>, userId: string)
  {
    userId in users && users[userId].rol == "admin"
  }
}
