/**
 * The pure helpers of `ZENYX/core/utils.py`: the plan-duration tables, the
 * reporting periods, price-text normalisation and the texts and callback
 * chosen for a bot's menu and its VIP chat. Times are whole seconds and
 * `now` is the clock reading.
 */
module CoreUtils {

  import opened Wrappers
  import opened Text
  import opened Json
  import opened Store

  const Day: nat := 86400

  /** The plan codes with a finite duration, in the order the tables list them. */
  const FiniteDurations: seq<string> := ["1_day", "7_days", "15_days", "30_days", "3_months", "6_months", "1_year"]

  /** Every plan code the tables know. */
  const Durations: seq<string> := FiniteDurations + ["lifetime"]

  /** The days `calculate_plan_expiry_date` adds for a plan code; `lifetime`
      and unknown codes have no expiry. */
  function ExpiryDays(planType: string): Option<nat>
  {
    if planType == "1_day" then Some(1)
    else if planType == "7_days" then Some(7)
    else if planType == "15_days" then Some(15)
    else if planType == "30_days" then Some(30)
    else if planType == "3_months" then Some(90)
    else if planType == "6_months" then Some(180)
    else if planType == "1_year" then Some(365)
    else None
  }

  /** `calculate_plan_expiry_date(plan_type)` as a timestamp. */
  function ExpiryDate(planType: string, now: int): Option<int>
  {
    match ExpiryDays(planType)
    case Some(d) => Some(now + d * Day)
    case None => None
  }

  /** A plan expires iff its code is one of the seven finite ones, and then
      strictly after `now`, by at most a year. */
  lemma ExpirySpec(planType: string, now: int)
    ensures ExpiryDate(planType, now).Some? <==> planType in FiniteDurations
    ensures ExpiryDate(planType, now).Some? ==>
      now < ExpiryDate(planType, now).value <= now + 365 * Day
  {
  }

  /** `get_plan_duration_text(plan_type)`. */
  function DurationText(planType: string): string
  {
    if planType == "1_day" then "1 Dia"
    else if planType == "7_days" then "7 Dias"
    else if planType == "15_days" then "15 Dias"
    else if planType == "30_days" then "30 Dias"
    else if planType == "3_months" then "3 Meses"
    else if planType == "6_months" then "6 Meses"
    else if planType == "1_year" then "1 Ano"
    else if planType == "lifetime" then "Vitalício"
    else "Desconhecido"
  }

  /** The label is "Desconhecido" exactly for codes outside the table; a known
      code with no expiry is `lifetime`, labelled "Vitalício". */
  lemma DurationTextSpec(planType: string)
    ensures DurationText(planType) == "Desconhecido" <==> planType !in Durations
    ensures planType in Durations && ExpiryDays(planType).None? <==> planType == "lifetime"
    ensures planType == "lifetime" ==> DurationText(planType) == "Vitalício"
  {
  }

  /** Distinct plan codes of the table get distinct labels. */
  lemma DurationLabelsDistinct()
    ensures forall i, j :: 0 <= i < j < |Durations| ==> DurationText(Durations[i]) != DurationText(Durations[j])
  {
    assert Durations == ["1_day", "7_days", "15_days", "30_days", "3_months", "6_months", "1_year", "lifetime"];
  }

  /** The days back a reporting period starts; `None` is "all time". */
  function PeriodDays(period: string): Option<nat>
  {
    if period == "7_days" then Some(7)
    else if period == "15_days" then Some(15)
    else if period == "30_days" then Some(30)
    else if period == "3_months" then Some(90)
    else if period == "6_months" then Some(180)
    else if period == "1_year" then Some(365)
    else None
  }

  /** `get_period_timestamps(period)`: the interval ends now and starts the
      period's length earlier, or at 0 for any other period. */
  function PeriodTimestamps(period: string, now: nat): (interval: (int, nat))
    ensures interval.1 == now
  {
    match PeriodDays(period)
    case Some(d) => (now - d * Day, now)
    case None => (0, now)
  }

  /** The start never follows the end, known periods are exactly their length
      long, and unknown periods start at 0. */
  lemma PeriodSpec(period: string, now: nat)
    ensures PeriodTimestamps(period, now).0 <= PeriodTimestamps(period, now).1
    ensures PeriodDays(period).Some? ==>
      PeriodTimestamps(period, now).1 - PeriodTimestamps(period, now).0 == PeriodDays(period).value * Day
    ensures PeriodDays(period).None? ==> PeriodTimestamps(period, now).0 == 0
  {
  }

  /** The text `parse_price` hands to `float`: "R$" and spaces removed, and
      commas turned into points. */
  function NormalizePrice(price: string): string
  {
    Replace(Replace(Replace(price, "R$", ""), " ", ""), ",", ".")
  }

  /** The normalised price has no spaces and no commas; a plain string of
      digits is left as it is. */
  lemma NormalizePriceSpec(price: string)
    ensures ' ' !in NormalizePrice(price) && ',' !in NormalizePrice(price)
    ensures AllDigits(price) ==> NormalizePrice(price) == price
  {
    var a := Replace(price, "R$", "");
    var b := Replace(a, " ", "");
    ReplaceRemovesChar(a, ' ', "");
    ReplaceKeepsAbsent(b, ",", ".", ' ');
    ReplaceRemovesChar(b, ',', ".");
    if AllDigits(price) {
      assert 'R' !in price;
      ReplaceNoMatch(price, "R$", "");
      assert ' ' !in price;
      ReplaceNoMatch(price, " ", "");
      assert ',' !in price;
      ReplaceNoMatch(price, ",", ".");
    }
  }

  /** A bot is shown as running iff its status field is "active". */
  predicate ShownActive(botData: Record)
  {
    Get(botData, "status", Null) == Str("active")
  }

  /** The status word of `create_bot_info_text`. */
  function StatusLabel(botData: Record): (shown: string)
    ensures shown == "🟢 Ativo" <==> ShownActive(botData)
  {
    if ShownActive(botData) then "🟢 Ativo" else "🔴 Desativado"
  }

  /** `create_bot_info_text(bot_data)`. */
  function BotInfoText(botData: Record): string
  {
    "🤖 Seus Bots\n@" + Show(Get(botData, "username", Str(""))) +
    "\n🆔: " + Show(Get(botData, "id", Str(""))) +
    "\n📊: " + StatusTail(botData)
  }

  /** The closing part of the info text. */
  function StatusTail(botData: Record): string
  {
    "Status (" + StatusLabel(botData) + ")"
  }

  /** The info text ends with the status in parentheses, "Ativo" iff the bot's
      status is "active". */
  lemma BotInfoTextSpec(botData: Record)
    ensures var t := BotInfoText(botData);
      var tail := "Status (" + StatusLabel(botData) + ")";
      |tail| <= |t| && t[|t| - |tail|..] == tail
    ensures StatusLabel(botData) == "🟢 Ativo" <==> ShownActive(botData)
  {
    var tail := StatusTail(botData);
    var head := "🤖 Seus Bots\n@" + Show(Get(botData, "username", Str(""))) +
      "\n🆔: " + Show(Get(botData, "id", Str(""))) + "\n📊: ";
    assert BotInfoText(botData) == head + tail;
    assert (head + tail)[|head|..] == tail;
  }

  /** The pause/resume callback `build_menu_keyboard` offers. */
  function MenuStatusAction(botData: Record): string
  {
    var id := Show(Get(botData, "id", Str("")));
    if ShownActive(botData) then "pause_bot:" + id else "resume_bot:" + id
  }

  /** The menu offers pausing iff the bot is active, and resuming otherwise,
      always for the bot's own id. */
  lemma MenuStatusActionSpec(botData: Record)
    ensures var a := MenuStatusAction(botData);
      var id := Show(Get(botData, "id", Str("")));
      (ShownActive(botData) ==> a == "pause_bot:" + id) &&
      (!ShownActive(botData) ==> a == "resume_bot:" + id)
    ensures StartsWith(MenuStatusAction(botData), "pause_bot:") <==> ShownActive(botData)
  {
    var id := Show(Get(botData, "id", Str("")));
    if !ShownActive(botData) {
      var a := "resume_bot:" + id;
      assert a[0] == 'r';
    }
  }

  /** Resuming a stored bot makes its menu offer pausing it, and pausing it
      makes the menu offer resuming it. */
  lemma MenuAfterStatusChange(k: Keyspace, id: string, isActive: bool, now: int)
    requires Found(k.bots, id)
    ensures var r := WithStatus(k, id, isActive, now).bots[id];
      StartsWith(MenuStatusAction(r), "pause_bot:") <==> isActive
  {
    var r := WithStatus(k, id, isActive, now).bots[id];
    assert Get(r, "status", Null) == StatusValue(isActive);
    MenuStatusActionSpec(r);
  }

  const ChannelNotConfigured: string := "👥 Configuração do Chat VIP\nStatus: ❌ Não configurado"

  /** The lines before the chat's title in a configured channel's text. */
  const ChannelConfiguredHead: string := "👥 Configuração do Chat VIP\nStatus: ✅ Configurado\nChat: "

  /** `build_channel_info_text(chat_config)`; `None` is a missing config. */
  function ChannelInfoText(chatConfig: Option<Record>): string
  {
    if chatConfig.None? || chatConfig.value == map[] then ChannelNotConfigured
    else
      var chatId := Show(Get(chatConfig.value, "chat_id", Str("")));
      var chatTitle := Show(Get(chatConfig.value, "chat_title", Str("")));
      ChannelConfiguredHead + chatTitle + "\nID: " + chatId
  }

  /** The "not configured" text is shown exactly for a missing or empty
      config; otherwise the text ends with the chat's id. */
  lemma ChannelInfoTextSpec(chatConfig: Option<Record>)
    ensures ChannelInfoText(chatConfig) == ChannelNotConfigured <==>
      chatConfig.None? || chatConfig.value == map[]
    ensures chatConfig.Some? && chatConfig.value != map[] ==>
      var t := ChannelInfoText(chatConfig);
      var tail := "\nID: " + Show(Get(chatConfig.value, "chat_id", Str("")));
      |tail| <= |t| && t[|t| - |tail|..] == tail
  {
    if chatConfig.Some? && chatConfig.value != map[] {
      var t := ChannelInfoText(chatConfig);
      var chatTitle := Show(Get(chatConfig.value, "chat_title", Str("")));
      var head := ChannelConfiguredHead + chatTitle;
      var tail := "\nID: " + Show(Get(chatConfig.value, "chat_id", Str("")));
      assert t == head + tail;
      assert t[35] != ChannelNotConfigured[35];
    }
  }

  /** A configured channel's text is the fixed header, then the chat's title,
      then the line with its id, and nothing else. */
  lemma ChannelInfoTextLayout(config: Record)
    requires config != map[]
    ensures var t := ChannelInfoText(Some(config));
      var title := Show(Get(config, "chat_title", Str("")));
      var tail := "\nID: " + Show(Get(config, "chat_id", Str("")));
      |t| == |ChannelConfiguredHead| + |title| + |tail| && t[..|ChannelConfiguredHead|] == ChannelConfiguredHead
      && t[|ChannelConfiguredHead|..|ChannelConfiguredHead| + |title|] == title
  {
    var t := ChannelInfoText(Some(config));
    var head := ChannelConfiguredHead + Show(Get(config, "chat_title", Str("")));
    assert t == head + "\nID: " + Show(Get(config, "chat_id", Str("")));
    assert t[..|head|] == head;
  }
}
