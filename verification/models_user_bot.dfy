/**
 * The `UserBot` record model (`ZENYX/models/user_bot.py`): its attributes,
 * conversion to and from a dict, and its reads and writes of `bot:{id}`,
 * `user:{uid}:bots` and `bot_counter`. Python does not check the annotated
 * argument types, so every attribute is a JSON value.
 */
module ModelsUserBot {

  import opened Wrappers
  import opened Json
  import opened Store

  datatype UserBot = UserBot(
    botId: Value, userId: Value, token: Value, username: Value,
    active: Value, createdAt: Value,
    channelId: Value, pushinToken: Value,
    welcomeMessages: Value, plans: Value,
    upsell: Value, orderBump: Value, supportUsername: Value)

  /** `UserBot(bot_id, user_id, token, username)` constructed at time `now`. */
  function New(botId: Value, userId: Value, token: Value, username: Value, now: int): UserBot
  {
    UserBot(botId, userId, token, username, Bool(true), Int(now),
            Null, Null, List([]), List([]), Null, Null, Null)
  }

  function ToDict(b: UserBot): Record
  {
    map["bot_id" := b.botId, "user_id" := b.userId, "token" := b.token, "username" := b.username,
        "active" := b.active, "created_at" := b.createdAt,
        "channel_id" := b.channelId, "pushin_token" := b.pushinToken,
        "welcome_messages" := b.welcomeMessages, "plans" := b.plans,
        "upsell" := b.upsell, "order_bump" := b.orderBump, "support_username" := b.supportUsername]
  }

  /** `from_dict`: the four constructor keys are required (`None` stands for the
      `KeyError`); every other attribute falls back to its default. */
  function FromDict(data: Record, now: int): Option<UserBot>
  {
    if "bot_id" in data && "user_id" in data && "token" in data && "username" in data then
      Some(UserBot(data["bot_id"], data["user_id"], data["token"], data["username"],
                   Get(data, "active", Bool(true)), Get(data, "created_at", Int(now)),
                   Get(data, "channel_id", Null), Get(data, "pushin_token", Null),
                   Get(data, "welcome_messages", List([])), Get(data, "plans", List([])),
                   Get(data, "upsell", Null), Get(data, "order_bump", Null),
                   Get(data, "support_username", Null)))
    else None
  }

  /** `from_dict(to_dict(b))` reproduces every attribute of `b`. */
  lemma FromDictToDict(b: UserBot, now: int)
    ensures FromDict(ToDict(b), now) == Some(b)
  {
  }

  /** A dict with only the four required keys loads as a freshly constructed
      bot: active, no channel, token, upsell, order bump or support, empty
      message and plan lists. */
  lemma FromDictDefaults(botId: Value, userId: Value, token: Value, username: Value, now: int)
    ensures FromDict(map["bot_id" := botId, "user_id" := userId, "token" := token, "username" := username], now)
         == Some(New(botId, userId, token, username, now))
    ensures var b := New(botId, userId, token, username, now);
      b.active == Bool(true) && b.welcomeMessages == List([]) && b.plans == List([])
      && b.channelId == Null && b.pushinToken == Null && b.upsell == Null
      && b.orderBump == Null && b.supportUsername == Null
  {
  }

  /** A dict missing a required key does not load. */
  lemma FromDictRequiresKeys(data: Record, now: int)
    ensures FromDict(data, now).Some? <==> "bot_id" in data && "user_id" in data && "token" in data && "username" in data
  {
  }

  /** `UserBot.get`: a missing `bot:{id}` key gives `None`; a stored dict is
      loaded with `from_dict`, which raises when a required key is missing. */
  function Load(k: Keyspace, botId: Value, now: int): Fetched<UserBot>
  {
    var key := Show(botId);
    if key !in k.bots then Missing
    else match FromDict(k.bots[key], now)
      case Some(b) => Fetched(b)
      case None => KeyError
  }

  /** The keyspace after `save`: the bot's dict under `bot:{bot_id}` and its
      id in its owner's index. */
  function Saved(k: Keyspace, b: UserBot): Keyspace
  {
    k.(bots := k.bots[Show(b.botId) := ToDict(b)],
       userBots := k.userBots[Show(b.userId) := Members(k.userBots, Show(b.userId)) + {Show(b.botId)}])
  }

  /** `save`: the bot's dict is written to `bot:{bot_id}` and its id added to
      its owner's index; `incr("bot_counter", 0)` leaves the counter's value
      as it was. The saved bot loads back unchanged. */
  method Save(b: UserBot, db: Database)
    modifies db
    ensures db.ks == old(db.ks).(
      bots := old(db.ks.bots)[Show(b.botId) := ToDict(b)],
      userBots := old(db.ks.userBots)[Show(b.userId) := Members(old(db.ks.userBots), Show(b.userId)) + {Show(b.botId)}])
    ensures db.ks.botCounter == old(db.ks.botCounter) && db.ks.allBots == old(db.ks.allBots)
    ensures db.ks == Saved(old(db.ks), b)
    ensures forall now :: Load(db.ks, b.botId, now) == Fetched(b)
  {
    db.ks := db.ks.(bots := db.ks.bots[Show(b.botId) := ToDict(b)]);
    db.ks := db.ks.(userBots := db.ks.userBots[Show(b.userId) := Members(db.ks.userBots, Show(b.userId)) + {Show(b.botId)}]);
    db.ks := db.ks.(botCounter := db.ks.botCounter + 0);
    forall now
      ensures Load(db.ks, b.botId, now) == Fetched(b)
    {
      FromDictToDict(b, now);
    }
  }

  /** `generate_id`: `bot_counter` is incremented and its new value formatted
      with at least two digits; successive ids therefore differ. */
  method GenerateId(db: Database) returns (id: string)
    modifies db
    ensures db.ks == old(db.ks).(botCounter := old(db.ks.botCounter) + 1)
    ensures id == BotId(db.ks.botCounter)
  {
    db.ks := db.ks.(botCounter := db.ks.botCounter + 1);
    id := BotId(db.ks.botCounter);
  }
}
