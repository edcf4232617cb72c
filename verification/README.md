# ZENYX bot factory — a verified model of its core

ZENYX is a Telegram "bot factory". Customers register their own bots with the
main bot. Each user bot sells plans, sends welcome messages and remarketing
campaigns, offers upsells and order bumps, and takes PIX payments.

This project models the parts of the factory whose behaviour can be stated
without the network:

- **The store** (`Store`). The Redis-backed `Database` holds records for bots,
  users, payments, numbered per-bot messages and plans, and feature configs.
  It also holds the `all_bots` and `user:{id}:bots` index sets and the id
  counters. It is modelled as one `Keyspace` value in a `Database` class.
  Every method states the new keyspace. `Keyspace.Valid()` is preserved
  everywhere. It says that a record exists exactly when its id is in its
  index, and that every id is at most its counter.
- **The supervisor** (`UserBotMain`). The `active_bots` map and
  `start_user_bot`/`stop_user_bot` are modelled. So are one pass of
  `monitor_new_bots` and the start-up loop of `run_user_bots`.
- **Bot lifecycle** (`CoreBotManager`): create, pause, resume, delete and token
  replacement, the cached username, and the feature/PushinPay accessors.
- **Records** (`ModelsUserBot`, `ModelsUser`): the `to_dict`/`from_dict`
  round trips, defaults, `get`/`save` and `generate_id`.
- **Pure tables and texts** (`CoreUtils`, `UserBotHandlers`, `RootUtils`):
  - plan durations, periods and labels;
  - chat-id and support-username checks;
  - list previews and ordering arrows;
  - currency formatting of integer cents and base64 prefix handling.
- **Per-owner SQL tables** (`UserBotPlans`, `Upsell`, `OrderBump`, `Support`):
  upsert, toggle and read-back, over `map`s keyed by owner or plan id.
- **Loops over recipients** (`AdminHandlers`, `Remarketing`): the admin stats
  and broadcast counters, pagination, and the remarketing send loop with its
  carried-over keyboard.
- **Welcome messages and PushinPay settings** (`MessageConfig`,
  `UserBotPayment`): the FSM-driven append of a welcome message, and the
  token dialogue.
- **Cash-out and state classes** (`PushinPayCashOut`, `Entities`): PIX key
  validation and payload, and the `Plan`/`Message`/`Payment` classes.

Python values are modelled by `Json.Value` (null, bool, int, string, list,
object), and a stored dict by `Record = map<string, Value>`. Every call whose
outcome depends on the outside world is a parameter of the model:

- the Telegram API (`get_me`, sends, connection close);
- the payment gateway;
- the clock and uuid generation;
- base64 decoding.

## Model

| member | source | states |
|---|---|---|
| Store.BotId | database.py:111-112 | the bot id is the counter value written with at least two digits, and reads back as that value (so distinct counter values give distinct ids) |
| Store.Filter | database.py:190-198 | a comprehension keeps exactly the records satisfying the condition, never more than the input |
| Store.Collect | database.py:177-188 | the getter loop walks every id of the index once and returns exactly the stored, non-empty records under those ids |
| Store.Stamp | database.py:62-74 | a saved dict keeps its fields, gets `updated_at = now`, and gets `created_at = now` only when it had none |
| Store.IntOfTextRoundTrip | database.py:285 | `int` reads back every printed integer, negative ones included, as itself |
| Store.InsertById | database.py:285 | inserting a record keeps every key readable and adds exactly that record to the multiset |
| Store.InsertByIdBounded | database.py:285 | inserting a record whose key is at most k keeps every key at most k |
| Store.InsertByIdSorted | database.py:285 | inserting into a list sorted by numeric id keeps it sorted |
| Store.SortById | database.py:285 | the sort by `int(id)` yields a sorted permutation of its input |
| Store.CollectionSave | database.py:243-265 | a new message/plan gets id "counter+1", is stored and indexed under its bot, and the id was not in use (index/counter invariant kept) |
| Store.CollectionUpdate | database.py:289-300 | a missing or empty entry gives False and no change; otherwise the updates are merged and `updated_at` refreshed |
| Store.CollectionDelete | database.py:302-316 | the entry leaves the bot's index and records; the invariant is kept |
| Store.CollectionDeleteAll | database.py:318-336 | every indexed entry is deleted and the bot's index and counter disappear, so the counter reads 0 again |
| Store.CollectionList | database.py:368-379 | listing returns exactly the stored entries of the bot's index |
| Store.Database.constructor | database.py:22-25 | the store starts with the given keyspace (the Redis contents are a parameter) |
| Store.Database.GetUser | database.py:56-60 | a user record is returned exactly when `user:{id}` exists |
| Store.Database.SaveUser | database.py:62-74 | the stamped dict is written to `user:{id}` and True returned, nothing else changing; a raising write gives False and no change |
| Store.Database.UpdateUser | database.py:76-83 | a missing user or a raising write gives False and no change; otherwise only that user's dict is merged and stamped |
| Store.Database.DeleteUser | database.py:85-93 | only `user:{id}` is removed and True returned; a raising delete gives False and no change |
| Store.Database.SaveUserBot | database.py:106-132 | the counter is incremented and the id formatted from it; the record is stored with status "active" and the id added to both indexes; the id is fresh and the invariant is kept |
| Store.Database.GetUserBot | database.py:134-138 | a bot record is returned exactly when `bot:{id}` exists |
| Store.Database.FindBotBy | database.py:140-162 | the scan returns a stored bot with the requested field value, or none exists |
| Store.Database.GetUserBotByToken | database.py:140-150 | a returned bot has the token; `None` means no stored bot has it |
| Store.Database.GetUserBotByUsername | database.py:152-162 | a returned bot has the username; `None` means no stored bot has it |
| Store.Database.GetUserBots | database.py:164-175 | exactly the stored bots listed under the owner's index |
| Store.Database.GetAllUserBots | database.py:177-188 | exactly the stored bots listed in `all_bots` |
| Store.Database.GetNewUserBots | database.py:190-193 | raises exactly when some stored bot's `created_at` cannot be compared with a number; otherwise exactly the stored bots with `created_at` strictly greater than the argument |
| Store.Database.GetStoppedUserBots | database.py:195-198 | exactly the stored bots whose status is "inactive" or "deleted" |
| Store.Database.UpdateUserBot | database.py:200-211 | a missing bot gives False and no change; otherwise the updates win, every other field is kept and `updated_at` is refreshed |
| Store.Database.UpdateUserBotStatus | database.py:213-216 | True writes "active" and False writes "inactive", through `update_user_bot` |
| Store.Database.DeleteUserBot | database.py:218-241 | an unknown bot or a raising write gives False and no change; otherwise the bot leaves `bot:{id}`, `all_bots` and its owner's index, and the invariant is kept |
| Store.Database.SaveBotMessage | database.py:243-265 | the message gets the bot's next message number and is stored and indexed; the number was unused |
| Store.Database.GetBotMessage | database.py:267-271 | the message is returned exactly when it exists |
| Store.Database.GetBotMessages | database.py:273-287 | the bot's messages sorted by numeric id, as a permutation of the stored ones; `None` where an id is not an integer |
| Store.Database.UpdateBotMessage | database.py:289-300 | a missing message gives False and no change; otherwise it is merged and stamped |
| Store.Database.DeleteBotMessage | database.py:302-316 | the message leaves the record set and the index and True is returned; a raising write gives False and no change |
| Store.Database.DeleteAllBotMessages | database.py:318-336 | all messages, the index and the counter are deleted, so the next message gets number 1; a raising write gives False and no change |
| Store.Database.SaveBotPlan | database.py:338-360 | the plan gets the bot's next plan number and is stored and indexed; the number was unused |
| Store.Database.GetBotPlan | database.py:362-366 | the plan is returned exactly when it exists |
| Store.Database.GetBotPlans | database.py:368-379 | exactly the bot's stored plans |
| Store.Database.UpdateBotPlan | database.py:381-392 | a missing plan gives False and no change; otherwise it is merged and stamped |
| Store.Database.DeleteBotPlan | database.py:394-410 | the plan leaves the record set and the index and True is returned; a raising write gives False and no change |
| Store.Database.SavePayment | database.py:412-436 | the payment keeps its `created_at` if given; it is indexed under its user and bot only when those ids are present |
| Store.Database.GetPayment | database.py:438-442 | the payment is returned exactly when it exists |
| Store.Database.UpdatePayment | database.py:444-455 | a missing payment gives False and no change; otherwise it is merged and stamped |
| Store.Database.GetUserPayments | database.py:457-468 | exactly the stored payments indexed under the user |
| Store.Database.GetBotPayments | database.py:470-481 | exactly the stored payments indexed under the bot |
| Store.Database.GetBotPaymentsByPeriod | database.py:483-493 | raises exactly when one of the bot's payments has a `created_at` that cannot be compared with a number; otherwise exactly the bot's payments with status "paid" and `start <= created_at <= end` |
| Store.Database.SaveBotFeatureConfig | database.py:495-508 | the stamped config is written under (bot, feature) and True returned; a raising write gives False and no change |
| Store.Database.GetBotFeatureConfig | database.py:510-514 | the config is returned exactly when it exists |
| Store.Database.DeleteBotFeatureConfig | database.py:516-520 | only that config is removed and True returned; a raising delete gives False and no change |
| Store.SaveBotKeepsIndex | database.py:115-130 | storing a fresh bot under the next counter value and adding it to both indexes keeps the index invariant |
| Store.UpdateBotKeepsIndex | database.py:200-211 | rewriting a bot without changing its owner keeps the index invariant |
| Store.DeleteBotKeepsIndex | database.py:226-236 | removing a bot's record and its id from both indexes keeps the index invariant |
| UserBotMain.MaxCreatedAt | ZENYX/user_bot_main.py:99-100 | the new `last_check` is an upper bound of every new bot's `created_at` and is attained by one of them |
| UserBotMain.NewBotsAreStamped | ZENYX/user_bot_main.py:85-100 | every bot selected as created after a non-negative `last_check` has a numeric `created_at` |
| UserBotMain.PausedBotRestartedAsWritten | ZENYX/user_bot_main.py:124-126 | a record with status "inactive" passes the start-up filter as written |
| UserBotMain.ShouldStartExcludesStopped | ZENYX/user_bot_main.py:124-126 | the intended filter (status "active") never starts an inactive or deleted bot and admits only bots the written filter admits |
| UserBotMain.Fleet.constructor | ZENYX/user_bot_main.py:22-27 | `active_bots` starts empty |
| UserBotMain.Fleet.StartUserBot | ZENYX/user_bot_main.py:36-63 | a reachable bot enters `active_bots` under its token and is marked active; an unreachable one is marked inactive and gives False; a record without an id raises |
| UserBotMain.Fleet.StopUserBot | ZENYX/user_bot_main.py:65-81 | an absent token gives False and leaves the map unchanged; a present token whose session closes is removed, and only it |
| UserBotMain.StartNewKeeps | ZENYX/user_bot_main.py:92-96 | the monitoring loop never drops or replaces a registered bot, and the keyspace changes only in the records of stored bots (same keys, still valid) |
| UserBotMain.StartNewSound | ZENYX/user_bot_main.py:92-96 | every token the monitoring loop registers answered and runs with the data of a listed new bot that carries it |
| UserBotMain.StartNewComplete | ZENYX/user_bot_main.py:92-96 | when the loop finishes, every new bot had a token, and a listed token is registered exactly when it already was or it answered |
| UserBotMain.StartLoadedSound | ZENYX/user_bot_main.py:124-126 | the start-up loop keeps every registered token and rewrites only bot records; a token it changes answered and runs a bot the filter admitted |
| UserBotMain.StartLoadedComplete | ZENYX/user_bot_main.py:124-126 | when the start-up loop finishes, every admitted bot had a token and an id, and every admitted bot that answered is registered |
| UserBotMain.StopListedKeeps | ZENYX/user_bot_main.py:103-108 | the stopping loop leaves the keyspace alone, registers nothing, and unregisters only listed tokens whose session closed |
| UserBotMain.StopListedComplete | ZENYX/user_bot_main.py:103-108 | when the stopping loop finishes, every listed bot had a token and no listed token whose session closes is still registered |
| UserBotMain.PausedBotRunsAsWritten | ZENYX/user_bot_main.py:124-126 | as written, start-up starts a paused ("inactive") bot that answers |
| UserBotMain.IntendedStartUpSkipsStopped | ZENYX/user_bot_main.py:124-126 | with the intended filter, every bot start-up registers or replaces is neither paused nor deleted |
| UserBotMain.Fleet.StartUnregistered | ZENYX/user_bot_main.py:92-96 | the new `active_bots` and keyspace, and whether it raised, are exactly where the monitoring loop function `StartNew` ends from the old state |
| UserBotMain.Fleet.StopRegistered | ZENYX/user_bot_main.py:103-108 | the new `active_bots`, and whether it raised, are exactly where `StopListed` ends from the old map |
| UserBotMain.Fleet.MonitorPass | ZENYX/user_bot_main.py:88-114 | an unreadable `created_at` raises before anything changes; otherwise exactly the bots created after `last_check` are found and started as `StartNew` says; a raise there, or a new bot without numeric `created_at`, keeps `last_check`; otherwise `last_check` becomes their maximum `created_at` and the bots then stored as paused or deleted are stopped as `StopListed` says |
| UserBotMain.Fleet.StartEach | ZENYX/user_bot_main.py:124-126 | the new `active_bots` and keyspace, and whether it raised, are exactly where `StartLoaded` ends with the given filter |
| UserBotMain.Fleet.RunUserBotsAsWritten | ZENYX/user_bot_main.py:116-126 | every stored bot is loaded, and the new state is where `StartLoaded` ends with the truthy-status filter |
| UserBotMain.Fleet.RunUserBots | ZENYX/user_bot_main.py:116-126 | every stored bot is loaded, and the new state is where `StartLoaded` ends with the intended filter (status "active") |
| CoreBotManager.CreatedRecord | ZENYX/core/bot_manager.py:148-169 | the created record carries its id, owner, token, identity and status "active" |
| CoreBotManager.TokenReplaced | ZENYX/core/bot_manager.py:207-218 | after a token update the record holds the new token and identity and status "active", and every other field is kept |
| CoreBotManager.UserBot.constructor | ZENYX/core/bot_manager.py:22-30 | the id, owner, token and username come from the bot data |
| CoreBotManager.UserBot.GetUsername | ZENYX/core/bot_manager.py:32-43 | a cached username is returned with no write; otherwise the fetched one is cached and written to the record |
| CoreBotManager.UserBot.GetFeatureConfig | ZENYX/core/bot_manager.py:81-111 | the accessors read the (bot, feature) config |
| CoreBotManager.UserBot.SaveFeatureConfig | ZENYX/core/bot_manager.py:81-111 | the accessors write the (bot, feature) config and give True, or give False and write nothing when the write raises |
| CoreBotManager.UserBot.GetPushinpayToken | ZENYX/core/bot_manager.py:121-124 | the stored token, or `None` without a PushinPay config |
| CoreBotManager.UserBot.SavePushinpayToken | ZENYX/core/bot_manager.py:126-129 | after a save that does not raise, the PushinPay token reads back as the saved one; a raising save changes nothing |
| CoreBotManager.BotManager.constructor | ZENYX/core/bot_manager.py:134-137 | the manager works on the given store |
| CoreBotManager.BotManager.CreateUserBot | ZENYX/core/bot_manager.py:139-169 | a rejected token gives `None` and no change; otherwise the bot is stored under the next id with status "active" and that record is returned |
| CoreBotManager.BotManager.PauseUserBot | ZENYX/core/bot_manager.py:179-181 | an existing bot's status becomes "inactive" |
| CoreBotManager.BotManager.ResumeUserBot | ZENYX/core/bot_manager.py:183-185 | an existing bot's status becomes "active" |
| CoreBotManager.BotManager.DeleteUserBot | ZENYX/core/bot_manager.py:187-196 | marking the bot deleted and then removing it leaves the same store as removing it, and returns whether it existed and the removal did not raise; when the removal raises, the bot stays stored, marked "deleted" |
| CoreBotManager.BotManager.UpdateUserBotToken | ZENYX/core/bot_manager.py:198-227 | a rejected token gives False and no change; otherwise the bot is paused and then rewritten with the new token and status "active" |
| ModelsUserBot.FromDictToDict | ZENYX/models/user_bot.py:24-60 | `from_dict(to_dict(b))` reproduces `b` |
| ModelsUserBot.FromDictDefaults | ZENYX/models/user_bot.py:9-22 | a dict with only the four required keys loads as a new bot: active, empty lists, null optional fields |
| ModelsUserBot.FromDictRequiresKeys | ZENYX/models/user_bot.py:43-60 | `from_dict` succeeds exactly when `bot_id`, `user_id`, `token` and `username` are present |
| ModelsUserBot.Save | ZENYX/models/user_bot.py:63-82 | saving writes `bot:{id}` and adds the id to the owner's set; the counter and `all_bots` are untouched; `get` then yields the same bot |
| ModelsUserBot.GenerateId | ZENYX/models/user_bot.py:112-115 | `bot_counter` is incremented and the id is its value padded to two digits |
| ModelsUser.FromDictToDict | ZENYX/models/user.py:17-39 | `from_dict(to_dict(u))` reproduces `u` |
| ModelsUser.FromDictDefaults | ZENYX/models/user.py:9-15 | a dict with only `user_id` loads as a new, unverified user without bots |
| ModelsUser.Save | ZENYX/models/user.py:42-54 | saving writes `user:{id}`, and `get` then yields the same user |
| CoreUtils.ExpirySpec | ZENYX/core/utils.py:69-90 | a plan expires exactly for the seven finite codes, after their number of days |
| CoreUtils.DurationTextSpec | ZENYX/core/utils.py:198-217 | "Desconhecido" exactly for unknown codes; the known code without expiry is `lifetime`, labelled "Vitalício" |
| CoreUtils.DurationLabelsDistinct | ZENYX/core/utils.py:198-217 | the eight known codes have pairwise distinct labels |
| CoreUtils.PeriodTimestamps | ZENYX/core/utils.py:47-67 | the interval ends now |
| CoreUtils.PeriodSpec | ZENYX/core/utils.py:47-67 | the start never follows the end; known periods span their days and any other period starts at 0 |
| CoreUtils.NormalizePriceSpec | ZENYX/core/utils.py:35-45 | the text handed to `float` has no spaces and no commas, and a plain number is unchanged |
| CoreUtils.StatusLabel | ZENYX/core/utils.py:103-109 | the label reads "Ativo" exactly when status is "active" |
| CoreUtils.BotInfoTextSpec | ZENYX/core/utils.py:103-109 | the info text ends with the status label, "Ativo" iff the bot is active |
| CoreUtils.MenuStatusActionSpec | ZENYX/core/utils.py:111-127 | the menu offers `pause_bot:{id}` iff the bot is active, else `resume_bot:{id}` |
| CoreUtils.MenuAfterStatusChange | ZENYX/core/utils.py:126-127 | after resuming a bot its menu offers pausing, and after pausing it offers resuming |
| CoreUtils.ChannelInfoTextSpec | ZENYX/core/utils.py:181-196 | the "not configured" text exactly for a missing or empty config; otherwise the text ends with the id line |
| CoreUtils.ChannelInfoTextLayout | ZENYX/core/utils.py:181-196 | a configured channel's text is the fixed header, then the title, then the id line, and nothing else |
| UserBotHandlers.FormatDurationSpec | ZENYX/user_bot/handlers.py:2104-2123 | agrees with the duration table on known codes and gives "Indefinida" exactly for the others |
| UserBotHandlers.PlanDurationLabelSpec | ZENYX/user_bot/handlers.py:1117-1131 | finite codes get their label; every other code, "lifetime" included, gets "Vitalício" |
| UserBotHandlers.MetricsPeriodLabelSpec | ZENYX/user_bot/handlers.py:948-960 | unknown periods get the 7-day label, and the offered periods have distinct labels |
| UserBotHandlers.ChatIdSpec | ZENYX/user_bot/handlers.py:732-733 | a chat id is accepted iff, trimmed, it is "-100" followed by at least one digit, and nothing else; "-100" alone is rejected |
| UserBotHandlers.ChatIdHasDigits | ZENYX/user_bot/handlers.py:732-733 | an accepted chat id is "-100" followed by its digits |
| UserBotHandlers.DigitsMakeChatId | ZENYX/user_bot/handlers.py:732-733 | "-100" followed by digits, after trimming, is accepted |
| UserBotHandlers.BareChatIdRejected | ZENYX/user_bot/handlers.py:732-733 | "-100" with no digits after it is refused |
| UserBotHandlers.NormalizeSupportUsernameSpec | ZENYX/user_bot/handlers.py:865-869 | the trimmed text with at most one leading '@' removed |
| UserBotHandlers.DoubleAtKeepsOne | ZENYX/user_bot/handlers.py:865-869 | a name typed with two leading '@' still starts with '@' once normalised |
| UserBotHandlers.IsOwnerSpec | ZENYX/user_bot/handlers.py:106 | comparing string forms matches a numeric owner id exactly and a text owner id by its decimal form |
| UserBotHandlers.EditMessagesView | ZENYX/user_bot/handlers.py:447-503 | one button per message in order, then "delete all" and "back"; an empty list shows no buttons |
| UserBotHandlers.EditButtonText | ZENYX/user_bot/handlers.py:473-475 | text over 30 characters is cut to 30 plus "...", shorter text is shown whole |
| UserBotHandlers.MessageOrderView | ZENYX/user_bot/handlers.py:505-583 | each row has an up arrow iff its index is above 0 and a down arrow iff it is below the last; labels are numbered |
| UserBotPlans.InsertByPrice | ZENYX/user_bot/plans.py:30-48 | inserting a plan adds exactly it to the multiset |
| UserBotPlans.InsertByPriceBounded | ZENYX/user_bot/plans.py:30-48 | inserting a plan no dearer than k keeps every price at most k |
| UserBotPlans.InsertByPriceSorted | ZENYX/user_bot/plans.py:30-48 | inserting into a price-sorted list keeps it sorted |
| UserBotPlans.SortByPrice | ZENYX/user_bot/plans.py:30-48 | `ORDER BY price` yields a sorted permutation |
| UserBotPlans.FormatPlanInfoSpec | ZENYX/user_bot/plans.py:260-294 | a missing duration shows as 30 days and an unknown one as "Vitalício"; the status is "Ativo" unless `active` is false |
| UserBotPlans.UpdatedRowSpec | ZENYX/user_bot/plans.py:169-178 | fields the update leaves out keep their value, and a full update writes every field |
| UserBotPlans.PlansTable.SavePlan | ZENYX/user_bot/plans.py:93-141 | the plan is inserted with the defaults (empty name, price 0, 30 days, active) unless its id is taken |
| UserBotPlans.PlansTable.GetPlan | ZENYX/user_bot/plans.py:57-91 | the owner's plan with that id, id as text, or `None` |
| UserBotPlans.PlansTable.UpdatePlan | ZENYX/user_bot/plans.py:143-202 | no owned plan gives False and no change; otherwise only the given fields change |
| UserBotPlans.PlansTable.TogglePlan | ZENYX/user_bot/plans.py:227-258 | no owned plan gives False; otherwise only `active` flips |
| UserBotPlans.PlansTable.DeletePlan | ZENYX/user_bot/plans.py:204-225 | only the owner's plan is removed |
| UserBotPlans.PlansTable.GetPlans | ZENYX/user_bot/plans.py:17-55 | exactly the owner's plans, each once, cheapest first |
| MessageConfig.FsmContext.Finish | ZENYX/user_bot/message_config.py:175-176 | finishing clears the state and its data |
| MessageConfig.AppendKeepsNumbering | ZENYX/user_bot/message_config.py:143-150 | appending with id = length + 1 keeps the list numbered 1, 2, … and keeps earlier entries |
| MessageConfig.AppendAndSave | ZENYX/user_bot/message_config.py:134-176 | a missing bot changes nothing; otherwise the bot with one more message is saved and reads back; the keyspace changes only by that save; the FSM is finished unless loading or appending raised, and nothing is written then either |
| MessageConfig.ReceiveTextMessage | ZENYX/user_bot/message_config.py:124-176 | nothing happens unless a text message is expected; otherwise one "text" entry numbered length + 1 is appended, and the store changes only by saving that bot; when nothing is added nothing is written |
| MessageConfig.ChooseMediaSpec | ZENYX/user_bot/message_config.py:181-201 | no media means no choice; a photo wins over a video, which wins over an animation |
| MessageConfig.ReceiveMediaMessage | ZENYX/user_bot/message_config.py:178-226 | a message without media is rejected; the chosen media is recorded in the FSM only while media is expected |
| MessageConfig.ReceiveMediaCaption | ZENYX/user_bot/message_config.py:228-289 | ignored without a recorded media; otherwise one media entry numbered length + 1 is appended, with no caption for "/pular", and the store changes only by saving that bot; when nothing is added nothing is written |
| MessageConfig.EditEntryButtonSpec | ZENYX/user_bot/message_config.py:387-394 | text labels show at most 30 characters followed by "..." and carry the list index |
| MessageConfig.EditMessagesList | ZENYX/user_bot/message_config.py:355-415 | a missing bot and an empty list are told apart; otherwise one button per welcome message in order |
| AdminHandlers.AdminMenu | ZENYX/handlers/admin_handlers.py:23-45 | a caller gets no menu exactly when not an admin |
| AdminHandlers.CountActive | ZENYX/handlers/admin_handlers.py:50-55 | the active count never exceeds the bot count |
| AdminHandlers.OwnersBounded | ZENYX/handlers/admin_handlers.py:57-63 | there are no more distinct owners than bots, and at least one when there is a bot |
| AdminHandlers.UniqueUsers | ZENYX/handlers/admin_handlers.py:57-61 | the loop collects exactly the distinct `user_id` values |
| AdminHandlers.AdminStats | ZENYX/handlers/admin_handlers.py:47-71 | active counts status "active", inactive = total − active, users = distinct owners |
| AdminHandlers.Broadcast | ZENYX/handlers/admin_handlers.py:123-167 | success + fail equals the number of distinct owners, and success counts exactly the owners reached |
| AdminHandlers.SendToEach | ZENYX/handlers/admin_handlers.py:143-153 | every recipient is tried once: success + fail is the number of recipients and success the number reached |
| AdminHandlers.DeliveredStep | ZENYX/handlers/admin_handlers.py:143-153 | one more owner adds one to the audience and adds one success iff the send succeeds |
| AdminHandlers.TotalPagesSpec | ZENYX/handlers/admin_handlers.py:176-178 | the page count is the least number of five-bot pages holding every bot |
| AdminHandlers.Clamp | ZENYX/handlers/admin_handlers.py:180-182 | a slice bound is clamped into the list |
| AdminHandlers.Slice | ZENYX/handlers/admin_handlers.py:180-182 | a slice is no longer than the list |
| AdminHandlers.FirstPageSpec | ZENYX/handlers/admin_handlers.py:169-223 | page 1 lists the first min(5, n) bots and shows navigation exactly when there are more than five |
| AdminHandlers.NavigationSpec | ZENYX/handlers/admin_handlers.py:199-207 | "next" appears iff page < total pages and "previous" iff page > 1 |
| AdminHandlers.NextPageShowsFirstPageAgain | ZENYX/handlers/admin_handlers.py:225-230 | with six bots, following "next" shows page 1 again, so the sixth bot is never listed |
| AdminHandlers.EveryBotListed | ZENYX/handlers/admin_handlers.py:225-230 | rendering the requested page lists bot i on page i/5 + 1, which exists and is reached by "next" |
| AdminHandlers.DetailStatusActionSpec | ZENYX/handlers/admin_handlers.py:264-267 | the detail view offers pause iff the bot is active, else resume |
| Remarketing.PromotionTextSpec | ZENYX/user_bot/remarketing.py:181-189 | a custom promotion's button says "APROVEITAR OFERTA"; otherwise it names the plan, "Plano" by default |
| Remarketing.PaymentRequestSpec | ZENYX/user_bot/remarketing.py:200-210 | `plan_id` and `duration` are requested only for non-custom promotions |
| Remarketing.Keyboards | ZENYX/user_bot/remarketing.py:174-224 | one keyboard per recipient |
| Remarketing.KeyboardCarriedOver | ZENYX/user_bot/remarketing.py:213-224 | a recipient whose payment fails gets the previous recipient's keyboard |
| Remarketing.KeyboardsStep | ZENYX/user_bot/remarketing.py:213-224 | one more recipient extends the keyboard list by the keyboard after that recipient's payment, or fails when the payment call raises |
| Remarketing.KeyboardsFailurePersists | ZENYX/user_bot/remarketing.py:192-224 | once a payment call raises, the whole run fails |
| Remarketing.NoPromotionNoKeyboard | ZENYX/user_bot/remarketing.py:174 | without a promotion nobody gets a keyboard |
| Remarketing.CountSent | ZENYX/user_bot/remarketing.py:226-314 | the count never exceeds the recipients |
| Remarketing.SendRemarketingMessage | ZENYX/user_bot/remarketing.py:123-319 | the loop counts exactly the recipients the model of the send reaches; never more than the recipients; 0 without recipients or bot |
| Remarketing.SendToRecipients | ZENYX/user_bot/remarketing.py:192-316 | the loop over the recipients returns exactly the count of the keyboard-and-send model, or 0 once a payment call raises |
| Remarketing.SentStep | ZENYX/user_bot/remarketing.py:192-316 | one step of the loop either dooms the run (a raising payment call) or extends the keyboards and the count by one recipient |
| Remarketing.CountSentStep | ZENYX/user_bot/remarketing.py:226-314 | one more recipient adds one to the count exactly when the type is unknown or the send completes |
| Remarketing.UnknownTypeCountsEveryone | ZENYX/user_bot/remarketing.py:231-308 | an unknown message type sends nothing and still counts every recipient |
| Remarketing.CountSentDelivered | ZENYX/user_bot/remarketing.py:226-314 | with a known type the count is the number of recipients whose send completes; failures do not stop the loop |
| Remarketing.RemarketingTargets | ZENYX/user_bot/remarketing.py:321-367 | all-zero counts on error or with no rows; otherwise the two counts read |
| Upsell.ConfigOf | ZENYX/user_bot/upsell.py:20-54 | a config exists exactly for an owner with a row |
| Upsell.UpsertedSpec | ZENYX/user_bot/upsell.py:56-137 | one row per owner; an existing row keeps its id, other owners are untouched, the read-back shows the saved fields with defaults "" / 0 / active |
| Upsell.ToggledSpec | ZENYX/user_bot/upsell.py:139-178 | no config gives False; otherwise only `active` flips, and two toggles restore the table |
| Upsell.UpsellConfigs.SaveUpsellConfig | ZENYX/user_bot/upsell.py:56-137 | the table becomes the upserted one, or stays as it was when the write fails |
| Upsell.UpsellConfigs.ToggleUpsell | ZENYX/user_bot/upsell.py:139-178 | the table becomes the toggled one exactly when the owner has a config |
| Upsell.UpsellOfferSpec | ZENYX/user_bot/upsell.py:180-249 | nothing is sent when the config is missing or inactive, the bot is unavailable, or the payment fails or has no URL; the request carries the original payment and the upsell link |
| OrderBump.ConfigOf | ZENYX/user_bot/order_bump.py:16-49 | a config exists exactly for an owner with a row |
| OrderBump.UpsertedSpec | ZENYX/user_bot/order_bump.py:51-128 | one row per owner, other owners untouched, id kept, saved fields read back with defaults |
| OrderBump.ToggledSpec | ZENYX/user_bot/order_bump.py:130-169 | no config gives False; otherwise only `active` flips, and two toggles restore the table |
| OrderBump.ButtonSpec | ZENYX/user_bot/order_bump.py:171-211 | the bump is active iff a config exists and is active; the button exists iff active and carries the text, price and callback "order_bump" |
| OrderBump.OrderBumpConfigs.SaveOrderBumpConfig | ZENYX/user_bot/order_bump.py:51-128 | the table becomes the upserted one, or stays as it was when the write fails |
| OrderBump.OrderBumpConfigs.ToggleOrderBump | ZENYX/user_bot/order_bump.py:130-169 | the table becomes the toggled one exactly when the owner has a config |
| Support.ConfigOf | ZENYX/user_bot/support.py:16-47 | a config exists exactly for an owner with a row |
| Support.SavedNameSpec | ZENYX/user_bot/support.py:73-77 | the stored name is the trimmed text without one leading '@' |
| Support.UpsertedSpec | ZENYX/user_bot/support.py:70-98 | one row per owner; an existing row keeps its id and creation time, other owners untouched, the name reads back |
| Support.SupportReplySpec | ZENYX/user_bot/support.py:105-135 | the reply names the stored contact iff the owner has one, else the "no contact" text |
| Support.ContactTextSpec | ZENYX/user_bot/support.py:121-128 | the contact reply links to the contact and differs from the "no contact" reply |
| Support.SupportConfigs.SaveSupportConfig | ZENYX/user_bot/support.py:49-103 | a non-text username fails with no change; otherwise the normalised name is upserted |
| UserBotPayment.TokenStatus | ZENYX/user_bot/payment.py:35 | "Configurado" exactly when the bot has a PushinPay token |
| UserBotPayment.ConfigPaymentCallback | ZENYX/user_bot/payment.py:17-55 | a non-owner is refused, a missing bot is reported, and otherwise the token is asked for with the current status |
| UserBotPayment.AcceptableTokenSpec | ZENYX/user_bot/payment.py:59-66 | a token shorter than 10 characters after stripping is refused, and surrounding spaces do not matter |
| UserBotPayment.ReceiveToken | ZENYX/user_bot/payment.py:57-128 | an unacceptable token, a missing bot or a failing PushinPay client changes nothing; otherwise the stripped token is stored and reads back, and the store changes only by saving that bot |
| PushinPayCashOut.Connect | ZENYX/integrations/pushin_pay/cash_out.py:21-31 | a client exists iff token and API URL are given; it authorises with the token |
| PushinPayCashOut.SendPixSpec | ZENYX/integrations/pushin_pay/cash_out.py:33-62 | the payload always has value, key and key type, and `webhook_url` iff one is supplied |
| PushinPayCashOut.TransactionStatusUrl | ZENYX/integrations/pushin_pay/cash_out.py:64-83 | the status URL is the base URL followed by the transaction id |
| PushinPayCashOut.ValidatePixKeySpec | ZENYX/integrations/pushin_pay/cash_out.py:85-106 | a key is valid iff its type is one of the four known types and the key is non-empty |
| RootUtils.FormatCurrencyShape | utils.py:27-38 | non-negative cents print as "R$ " + reais + "," + two-digit cents, with no '.' |
| RootUtils.FormatCurrencySpec | utils.py:27-38 | the cents can be read back from the printed amount |
| RootUtils.ReplacePoint | utils.py:27-38 | replacing "." by "," in digits + "." + digits changes only the point |
| RootUtils.Base64PayloadSpec | utils.py:5-25 | the payload after "base64," is kept whole, and a string without the marker is left as it is |
| Entities.CreatedAt | ZENYX/models/plan.py:44 | a supplied creation time is kept, otherwise it is now |
| Entities.Plan.constructor | ZENYX/models/plan.py:16-44 | the arguments are stored unchanged |
| Entities.Plan.WithDefaults | ZENYX/models/plan.py:16-44 | a new plan is active by default |
| Entities.Plan.Deactivate | ZENYX/models/plan.py:46-48 | the plan becomes inactive and nothing else changes |
| Entities.Plan.Activate | ZENYX/models/plan.py:50-52 | the plan becomes active and nothing else changes |
| Entities.Message.constructor | ZENYX/models/message.py:16-41 | the arguments are stored unchanged |
| Entities.Message.WithDefaults | ZENYX/models/message.py:16-41 | a new message is a text message and active by default |
| Entities.Message.Deactivate | ZENYX/models/message.py:43-45 | the message becomes inactive and nothing else changes |
| Entities.Message.Activate | ZENYX/models/message.py:47-49 | the message becomes active and nothing else changes |
| Entities.Payment.constructor | ZENYX/models/payment.py:16-44 | the arguments are stored unchanged |
| Entities.Payment.WithDefaults | ZENYX/models/payment.py:16-44 | a new payment is "pending" without a transaction id |
| Entities.Payment.UpdateStatus | ZENYX/models/payment.py:46-53 | the status becomes exactly the given one and nothing else changes |
| Text.ParseDecimalOfDecimal | database.py:111-112 | a printed number reads back as itself |
| Text.PaddedDecimalRoundTrip | database.py:111-112 | a zero-padded number reads back as itself |
| Text.StripSpec | ZENYX/user_bot/payment.py:59 | `strip()` keeps a slice with no whitespace at either end and drops only whitespace |
| Text.PreviewSpec | ZENYX/user_bot/handlers.py:473-475 | long text is cut and marked with "...", short text is kept |
| Json.Merge | database.py:205-208 | `dict.update`: the updates win and every other field is kept |

## Left out

- The Telegram API and UI: sends, edits, keyboard rendering, emoji texts and FSM wiring. Only the labels, callbacks and chosen texts named above are modelled.
- Concurrency and timing:
  - the polling task and its cadence;
  - the anti-flood and upsell sleeps;
  - the 2-second wait before a bot's record is removed;
  - parallel start-up.
- Time is a parameter `now`.
- HTTP calls to PushinPay and Telegram. Their outcomes are oracle parameters:
  - `get_me`;
  - payment creation;
  - connection close;
  - whether a send is delivered.
- `create_payment` and `get_bot_instance` are imported but not defined in the repository. They are oracle parameters.
- The Redis client, JSON encoding and the SQL drivers behind `fetch_one`/`execute`:
  - records are modelled at the dict level;
  - SQL tables are `map`s keyed by owner or plan id;
  - where the source catches a failing write (`save_user`, `delete_user`, `delete_user_bot`, the message, plan and feature-config deletes, `save_bot_feature_config`), a parameter `fails` says that the write raises, and the method then gives False and writes nothing.
- uuid and random id generation. The new id is a parameter.
- Floating point:
  - prices are integers;
  - `parse_price` is modelled only up to the text handed to `float`;
  - the float division in `format_currency` is modelled as exact integer arithmetic on cents, so precision loss for very large amounts is not captured.
- Base64 decoding itself (RFC 4648 section 4) is a parameter. Only the prefix handling is modelled.
- `get_all`/`get_by_user` in the record classes. Their loops are the same as `Store.Collect`.
- `prepare_remarketing_message` (ZENYX/user_bot/remarketing.py:19-121). It is a UI preview.
- The `only_non_paying` query of `send_remarketing_message` (ZENYX/user_bot/remarketing.py:138-158). The recipient list is a parameter.
- The `except` branch of `handle_support_command` (ZENYX/user_bot/support.py:136-138). `get_support_config` already catches its own errors, so the branch cannot be reached from the modelled code.
- The key used for text welcome messages differs between modules: `message_config.py` writes "content" and `handlers.py` reads "text". Each module is modelled with its own key.
- UserBotPlans.PlansTable.GetPlans: plans of equal price may come back in any order; the order among them is not pinned down.
- Store.Database.DeleteUserBot: the source removes the id from two indexes and then the record in three writes, so a failure part-way leaves the earlier writes in place; in the model a failing removal writes nothing.
- Store.Database.DeleteBotMessage: likewise two writes; a failure after the first leaves the index without the id; in the model a failing delete writes nothing.
- Store.Database.DeleteAllBotMessages: likewise one write per message and then two more; in the model a failing delete writes nothing.
- Store.Database.DeleteBotPlan: likewise two writes; in the model a failing delete writes nothing.
- UserBotMain.Fleet.StartUserBot: a failure while building the bot or its dispatcher is folded into `reachable`, which says whether the whole registration up to `bot.me` succeeds.
- UserBotHandlers.ChatIdSpec: the digits after "-100" are ASCII digits; Python's `isdigit` also accepts other Unicode digits (Arabic-Indic digits, superscripts), which the model rejects.
- Store.IntOfTextRoundTrip: `IntOfText` reads ASCII digits with surrounding whitespace and one sign; the underscores between digits and the non-ASCII decimal digits that Python's `int` also accepts are read as raising.
- UserBotHandlers.EditButtonText: a `text` that is a short list or dict is shown by Python through its `repr` without raising; the model treats any non-text value as raising.
- MessageConfig.EditEntryButtonSpec: likewise, a `content` that is a list is sliced and shown through its `repr`; the model treats any non-text content as raising.
- The admin callbacks for pausing, resuming and deleting a bot (ZENYX/handlers/admin_handlers.py:278-345). Their change of state is `CoreBotManager.BotManager.PauseUserBot`, `ResumeUserBot` and `DeleteUserBot`. The re-render that follows passes `None` as the database and raises `AttributeError` after the change, so the admin sees an error where the source meant to show the updated view.
- Upsell.UpsellConfigs.SaveUpsellConfig: a non-numeric price makes the write fail, since the price column is numeric.

## Findings

| source | as written | input that shows it | evidently intended | confidence | as-written member | corrected member |
|---|---|---|---|---|---|---|
| ZENYX/user_bot_main.py:124-126 | `run_user_bots` starts every loaded bot whose `status` is truthy | a bot with status "inactive" (paused by its owner) is started again at start-up | start only bots whose status is "active" | not executed | UserBotMain.PausedBotRunsAsWritten | UserBotMain.IntendedStartUpSkipsStopped |
| ZENYX/handlers/admin_handlers.py:225-230 | `admin_bot_page_callback` parses the page number and then calls the page-1 listing | six bots: "next" on page 1 leads to page 1 again, so the sixth bot is never listed | render the requested page | not executed | AdminHandlers.NextPageShowsFirstPageAgain | AdminHandlers.EveryBotListed |
