/**
 * The `User` record model (`ZENYX/models/user.py`): its attributes,
 * conversion to and from a dict, and its reads and writes of `user:{id}`.
 */
module ModelsUser {

  import opened Wrappers
  import opened Json
  import opened Store

  datatype User = User(
    userId: Value, username: Value, firstName: Value,
    isVerified: Value, bots: Value, createdAt: Value)

  /** `User(user_id, username=None, first_name=None)` constructed at time `now`. */
  function New(userId: Value, username: Value, firstName: Value, now: int): User
  {
    User(userId, username, firstName, Bool(false), List([]), Int(now))
  }

  function ToDict(u: User): Record
  {
    map["user_id" := u.userId, "username" := u.username, "first_name" := u.firstName,
        "is_verified" := u.isVerified, "bots" := u.bots, "created_at" := u.createdAt]
  }

  /** `from_dict`: `user_id` is required (`None` stands for the `KeyError`);
      the other attributes fall back to their defaults. */
  function FromDict(data: Record, now: int): Option<User>
  {
    if "user_id" in data then
      Some(User(data["user_id"], Get(data, "username", Null), Get(data, "first_name", Null),
                Get(data, "is_verified", Bool(false)), Get(data, "bots", List([])),
                Get(data, "created_at", Int(now))))
    else None
  }

  /** `from_dict(to_dict(u))` reproduces every attribute of `u`. */
  lemma FromDictToDict(u: User, now: int)
    ensures FromDict(ToDict(u), now) == Some(u)
  {
  }

  /** A dict holding only `user_id` loads as a new user: no username or first
      name, unverified, with no bots. */
  lemma FromDictDefaults(userId: Value, now: int)
    ensures FromDict(map["user_id" := userId], now) == Some(New(userId, Null, Null, now))
    ensures New(userId, Null, Null, now).isVerified == Bool(false) && New(userId, Null, Null, now).bots == List([])
  {
  }

  /** `User.get`: a missing `user:{id}` key gives `None`; a stored dict is
      loaded with `from_dict`. */
  function Load(k: Keyspace, userId: Value, now: int): Fetched<User>
  {
    var key := Show(userId);
    if key !in k.users then Missing
    else match FromDict(k.users[key], now)
      case Some(u) => Fetched(u)
      case None => KeyError
  }

  /** `save`: the user's dict is written to `user:{user_id}`; it loads back
      unchanged. */
  method Save(u: User, db: Database)
    modifies db
    ensures db.ks == old(db.ks).(users := old(db.ks.users)[Show(u.userId) := ToDict(u)])
    ensures forall now :: Load(db.ks, u.userId, now) == Fetched(u)
  {
    db.ks := db.ks.(users := db.ks.users[Show(u.userId) := ToDict(u)]);
    forall now
      ensures Load(db.ks, u.userId, now) == Fetched(u)
    {
      FromDictToDict(u, now);
    }
  }
}
