/**
 * Bot lifecycle operations built on the store (`ZENYX/core/bot_manager.py`):
 * the runtime `UserBot` handle with its cached username and its configuration
 * accessors, and `BotManager` with create, pause, resume, delete and token
 * replacement.
 *
 * Telegram's `get_me` is a parameter: `None` when validating the token fails
 * (the call, or closing the temporary bot, raises), otherwise the identity it
 * returns.
 */
module CoreBotManager {

  import opened Wrappers
  import opened Json
  import opened Store

  /** The part of `get_me`'s answer that the source reads. */
  datatype BotIdentity = BotIdentity(username: Value, firstName: Value)

  /** The features whose configuration `UserBot` reads and writes. */
  datatype Feature = Upsell | OrderBump | Support | Chat | Pushinpay

  function FeatureName(f: Feature): string
  {
    match f
    case Upsell => "upsell"
    case OrderBump => "order_bump"
    case Support => "support"
    case Chat => "chat"
    case Pushinpay => "pushinpay"
  }

  /** `get_pushinpay_token` read off a keyspace: the config's `token` field, or
      `None` when the config is missing or empty. */
  function PushinpayToken(k: Keyspace, bid: string): Value
  {
    if Found(k.features, (bid, "pushinpay")) then Get(k.features[(bid, "pushinpay")], "token", Null) else Null
  }

  /** The data `create_user_bot` passes to the store. */
  function CreationData(userId: int, token: string, me: BotIdentity): Record
  {
    map["token" := Str(token), "username" := me.username, "first_name" := me.firstName,
        "user_id" := Int(userId), "status" := Str("active")]
  }

  /** The record stored for a created bot carries its id, its owner, the
      validated token and identity, and status "active". */
  lemma CreatedRecord(userId: int, token: string, me: BotIdentity, id: string, now: int)
    ensures var r := Merge(CreationData(userId, token, me), NewBotFields(id, userId, now));
      && "id" in r && r["id"] == Str(id)
      && "status" in r && r["status"] == Str("active")
      && "token" in r && r["token"] == Str(token)
      && "user_id" in r && r["user_id"] == Int(userId) && Owner(r) == ShowInt(userId)
      && "username" in r && r["username"] == me.username
      && "first_name" in r && r["first_name"] == me.firstName
  {
  }

  /** The fields `update_user_bot_token` writes. */
  function TokenUpdates(newToken: string, me: BotIdentity): Record
  {
    map["token" := Str(newToken), "username" := me.username, "first_name" := me.firstName, "status" := Str("active")]
  }

  /** After a token replacement the bot's record holds the new token, the new
      identity and status "active", every other field but `updated_at` is kept,
      and no other bot changes. */
  lemma TokenReplaced(k: Keyspace, id: string, newToken: string, me: BotIdentity, now: int)
    requires Found(k.bots, id)
    ensures var k' := WithUpdates(WithStatus(k, id, false, now), id, TokenUpdates(newToken, me), now);
      && k' == k.(bots := k'.bots)
      && id in k'.bots && k'.bots == k.bots[id := k'.bots[id]]
      && "token" in k'.bots[id] && k'.bots[id]["token"] == Str(newToken)
      && "status" in k'.bots[id] && k'.bots[id]["status"] == Str("active")
      && "username" in k'.bots[id] && k'.bots[id]["username"] == me.username
      && "first_name" in k'.bots[id] && k'.bots[id]["first_name"] == me.firstName
      && Owner(k'.bots[id]) == Owner(k.bots[id])
      && forall f :: f in k.bots[id] && f !in TokenUpdates(newToken, me) && f != "updated_at" ==>
           f in k'.bots[id] && k'.bots[id][f] == k.bots[id][f]
  {
    TokenKeyspace(k, id, newToken, me, now);
    TokenRecordFields(k.bots[id], newToken, me, now);
  }

  /** A bot record after being paused and then given the token updates. */
  function ReplacedRecord(r: Record, newToken: string, me: BotIdentity, now: int): Record
  {
    Merge(r["status" := StatusValue(false)]["updated_at" := Int(now)], TokenUpdates(newToken, me))["updated_at" := Int(now)]
  }

  lemma TokenKeyspace(k: Keyspace, id: string, newToken: string, me: BotIdentity, now: int)
    requires Found(k.bots, id)
    ensures WithUpdates(WithStatus(k, id, false, now), id, TokenUpdates(newToken, me), now) ==
      k.(bots := k.bots[id := ReplacedRecord(k.bots[id], newToken, me, now)])
  {
    var k1 := WithStatus(k, id, false, now);
    assert k1.bots[id] == k.bots[id]["status" := StatusValue(false)]["updated_at" := Int(now)];
    assert Found(k1.bots, id);
  }

  lemma TokenRecordFields(r: Record, newToken: string, me: BotIdentity, now: int)
    ensures var r' := ReplacedRecord(r, newToken, me, now);
      && "token" in r' && r'["token"] == Str(newToken)
      && "status" in r' && r'["status"] == Str("active")
      && "username" in r' && r'["username"] == me.username
      && "first_name" in r' && r'["first_name"] == me.firstName
      && Owner(r') == Owner(r)
      && forall f :: f in r && f !in TokenUpdates(newToken, me) && f != "updated_at" ==> f in r' && r'[f] == r[f]
  {
    var r' := ReplacedRecord(r, newToken, me, now);
    assert "user_id" !in TokenUpdates(newToken, me);
    assert Get(r', "user_id", Null) == Get(r, "user_id", Null);
    forall f | f in r && f !in TokenUpdates(newToken, me) && f != "updated_at"
      ensures f in r' && r'[f] == r[f]
    {
      assert f != "status";
    }
  }

  class UserBot {
    const db: Database
    const id: Value
    const userId: Value
    const token: Value
    var username: Value

    constructor (data: Record, db: Database)
      ensures this.db == db
      ensures id == Get(data, "id", Null) && userId == Get(data, "user_id", Null)
      ensures token == Get(data, "token", Null) && username == Get(data, "username", Null)
    {
      this.db := db;
      id := Get(data, "id", Null);
      userId := Get(data, "user_id", Null);
      token := Get(data, "token", Null);
      username := Get(data, "username", Null);
    }

    /** `get_username`: a cached (truthy) username is returned with no call and
        no write. Otherwise, when `get_me` answers, its username is cached and
        written to the bot's record; when it fails, nothing changes. */
    method GetUsername(me: Option<Value>, now: int) returns (name: Value)
      modifies this, db
      ensures name == username
      ensures Truthy(old(username)) || me.None? ==> username == old(username) && db.ks == old(db.ks)
      ensures !Truthy(old(username)) && me.Some? ==>
        username == me.value && db.ks == WithUpdates(old(db.ks), Show(id), map["username" := me.value], now)
    {
      if !Truthy(username) && me.Some? {
        username := me.value;
        var ok := db.UpdateUserBot(Show(id), map["username" := username], now);
      }
      name := username;
    }

    method GetFeatureConfig(f: Feature) returns (r: Option<Record>)
      ensures r.Some? <==> (Show(id), FeatureName(f)) in db.ks.features
      ensures r.Some? ==> r.value == db.ks.features[(Show(id), FeatureName(f))]
    {
      r := db.GetBotFeatureConfig(Show(id), FeatureName(f));
    }

    method SaveFeatureConfig(f: Feature, data: Record, now: int, fails: bool) returns (ok: bool)
      modifies db
      ensures ok == !fails
      ensures db.ks == if fails then old(db.ks) else old(db.ks).(features := old(db.ks.features)[(Show(id), FeatureName(f)) := Stamp(data, now)])
    {
      ok := db.SaveBotFeatureConfig(Show(id), FeatureName(f), data, now, fails);
    }

    method GetPushinpayToken() returns (t: Value)
      ensures t == PushinpayToken(db.ks, Show(id))
    {
      var config := db.GetBotFeatureConfig(Show(id), "pushinpay");
      t := if config.Some? && config.value != map[] then Get(config.value, "token", Null) else Null;
    }

    /** After a successful save, `GetPushinpayToken` returns the saved token. */
    method SavePushinpayToken(t: Value, now: int, fails: bool) returns (ok: bool)
      modifies db
      ensures ok == !fails
      ensures ok ==> PushinpayToken(db.ks, Show(id)) == t
      ensures db.ks == if fails then old(db.ks) else old(db.ks).(features := old(db.ks.features)[(Show(id), "pushinpay") := Stamp(map["token" := t], now)])
    {
      ok := db.SaveBotFeatureConfig(Show(id), "pushinpay", map["token" := t], now, fails);
    }
  }

  class BotManager {
    const db: Database

    constructor (db: Database)
      ensures this.db == db
    {
      this.db := db;
    }

    /** `create_user_bot`: a token `get_me` rejects gives `None` and stores
        nothing; otherwise the bot is saved and the returned data is the stored
        record, with the new id and status "active". */
    method CreateUserBot(userId: int, token: string, me: Option<BotIdentity>, now: int) returns (r: Option<Record>)
      modifies db
      ensures me.None? ==> r.None? && db.ks == old(db.ks)
      ensures me.Some? ==> r == Some(Merge(CreationData(userId, token, me.value), NewBotFields(BotId(old(db.ks.botIdCounter) + 1), userId, now)))
      ensures me.Some? ==> BotId(old(db.ks.botIdCounter) + 1) in db.ks.bots && db.ks.bots[BotId(old(db.ks.botIdCounter) + 1)] == r.value
      ensures old(db.ks.Valid()) ==> db.ks.Valid()
    {
      if me.None? {
        return None;
      }
      var data := CreationData(userId, token, me.value);
      var id := db.SaveUserBot(userId, data, now);
      r := Some(Merge(data, NewBotFields(id, userId, now)));
    }

    method PauseUserBot(id: string, now: int) returns (ok: bool)
      modifies db
      ensures ok == Found(old(db.ks.bots), id)
      ensures db.ks == WithStatus(old(db.ks), id, false, now)
      ensures ok ==> db.ks.bots[id]["status"] == Str("inactive")
      ensures old(db.ks.Valid()) ==> db.ks.Valid()
    {
      ok := db.UpdateUserBotStatus(id, false, now);
    }

    method ResumeUserBot(id: string, now: int) returns (ok: bool)
      modifies db
      ensures ok == Found(old(db.ks.bots), id)
      ensures db.ks == WithStatus(old(db.ks), id, true, now)
      ensures ok ==> db.ks.bots[id]["status"] == Str("active")
      ensures old(db.ks.Valid()) ==> db.ks.Valid()
    {
      ok := db.UpdateUserBotStatus(id, true, now);
    }

    /** `delete_user_bot`: the status is first set to "deleted", then the bot is
        removed; the end state is the same as removing it directly, and the
        result is whether the bot existed. When the removal's write raises, the
        bot stays stored, marked "deleted". */
    method DeleteUserBot(id: string, now: int, fails: bool) returns (ok: bool)
      modifies db
      ensures ok == (Found(old(db.ks.bots), id) && !fails)
      ensures !ok ==> db.ks == WithUpdates(old(db.ks), id, map["status" := Str("deleted")], now)
      ensures ok ==> db.ks == old(db.ks).(
        bots := old(db.ks.bots) - {id},
        allBots := old(db.ks.allBots) - {id},
        userBots := old(db.ks.userBots)[Owner(old(db.ks.bots)[id]) := Members(old(db.ks.userBots), Owner(old(db.ks.bots)[id])) - {id}])
      ensures old(db.ks.Valid()) ==> db.ks.Valid()
    {
      ghost var k0 := db.ks;
      var marked := db.UpdateUserBot(id, map["status" := Str("deleted")], now);
      ghost var k1 := db.ks;
      ok := db.DeleteUserBot(id, fails);
      if ok {
        assert Owner(k1.bots[id]) == Owner(k0.bots[id]);
        assert k1.bots - {id} == k0.bots - {id};
      }
    }

    /** `update_user_bot_token`: a rejected token gives `False` and changes
        nothing. Otherwise the bot is marked "inactive", then the new token,
        username, first name and status "active" are merged into its record
        (`TokenReplaced`); the result is whether the bot existed. */
    method UpdateUserBotToken(id: string, newToken: string, me: Option<BotIdentity>, now: int) returns (ok: bool)
      modifies db
      ensures me.None? ==> !ok && db.ks == old(db.ks)
      ensures me.Some? ==> ok == Found(old(db.ks.bots), id)
      ensures me.Some? ==> db.ks == WithUpdates(WithStatus(old(db.ks), id, false, now), id, TokenUpdates(newToken, me.value), now)
      ensures old(db.ks.Valid()) ==> db.ks.Valid()
    {
      if me.None? {
        return false;
      }
      var paused := db.UpdateUserBotStatus(id, false, now);
      ok := db.UpdateUserBot(id, TokenUpdates(newToken, me.value), now);
    }
  }
}
