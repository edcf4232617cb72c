/**
 * The decisions inside the handlers of `ZENYX/user_bot/handlers.py` that do
 * not depend on Telegram: label tables, the VIP chat-id check, the support
 * username clean-up, the owner test and the buttons of the message editing
 * and ordering views.
 */
module UserBotHandlers {

  import opened Wrappers
  import opened Text
  import opened Json
  import CoreUtils

  /** `format_duration(duration)`. */
  function FormatDuration(duration: string): string
  {
    if duration == "1_day" then "1 Dia"
    else if duration == "7_days" then "7 Dias"
    else if duration == "15_days" then "15 Dias"
    else if duration == "30_days" then "30 Dias"
    else if duration == "3_months" then "3 Meses"
    else if duration == "6_months" then "6 Meses"
    else if duration == "1_year" then "1 Ano"
    else if duration == "lifetime" then "Vitalício"
    else "Indefinida"
  }

  /** `format_duration` agrees with `get_plan_duration_text` on every known
      code and answers "Indefinida" for every other one. */
  lemma FormatDurationSpec(duration: string)
    ensures duration in CoreUtils.Durations ==> FormatDuration(duration) == CoreUtils.DurationText(duration)
    ensures duration !in CoreUtils.Durations <==> FormatDuration(duration) == "Indefinida"
  {
  }

  /** The duration label `plan_duration_callback` shows: "Vitalício" unless
      the code is one of the seven finite ones. */
  function PlanDurationLabel(duration: string): string
  {
    if duration == "1_day" then "1 Dia"
    else if duration == "7_days" then "7 Dias"
    else if duration == "15_days" then "15 Dias"
    else if duration == "30_days" then "30 Dias"
    else if duration == "3_months" then "3 Meses"
    else if duration == "6_months" then "6 Meses"
    else if duration == "1_year" then "1 Ano"
    else "Vitalício"
  }

  /** The plan-creation label matches `format_duration` on finite codes and is
      "Vitalício" for every other code, `lifetime` included. */
  lemma PlanDurationLabelSpec(duration: string)
    ensures duration in CoreUtils.FiniteDurations ==> PlanDurationLabel(duration) == FormatDuration(duration)
    ensures duration !in CoreUtils.FiniteDurations <==> PlanDurationLabel(duration) == "Vitalício"
  {
  }

  /** The period label `metrics_period_callback` shows. */
  function MetricsPeriodLabel(period: string): string
  {
    if period == "15_days" then "Últimos 15 dias"
    else if period == "30_days" then "Últimos 30 dias"
    else if period == "3_months" then "Últimos 3 meses"
    else if period == "6_months" then "Últimos 6 meses"
    else if period == "1_year" then "Último ano"
    else if period == "all_time" then "Todo o período"
    else "Últimos 7 dias"
  }

  const MetricsPeriods: seq<string> := ["7_days", "15_days", "30_days", "3_months", "6_months", "1_year", "all_time"]

  /** Every period the menu offers has its own label, and any other period
      is labelled as the last seven days. */
  lemma MetricsPeriodLabelSpec(period: string)
    ensures period !in MetricsPeriods ==> MetricsPeriodLabel(period) == MetricsPeriodLabel("7_days")
    ensures forall p, q :: p in MetricsPeriods && q in MetricsPeriods && p != q ==>
      MetricsPeriodLabel(p) != MetricsPeriodLabel(q)
  {
  }

  /** The check in `chat_id_handler`: after trimming, the text starts with
      "-100" and the rest is a non-empty run of digits. */
  predicate IsValidChatId(text: string)
  {
    var chatId := Strip(text);
    StartsWith(chatId, "-100") && IsDigitString(chatId[4..])
  }

  /** A chat id is accepted exactly when, trimmed, it is "-100" followed by at
      least one digit; "-100" alone is rejected. */
  lemma ChatIdSpec(text: string)
    ensures IsValidChatId(text) <==>
      exists digits :: IsDigitString(digits) && Strip(text) == "-100" + digits
    ensures !IsValidChatId("-100")
  {
    if IsValidChatId(text) {
      ChatIdHasDigits(text);
    }
    forall digits | IsDigitString(digits) && Strip(text) == "-100" + digits
      ensures IsValidChatId(text)
    {
      DigitsMakeChatId(text, digits);
    }
    BareChatIdRejected();
  }

  lemma ChatIdHasDigits(text: string)
    requires IsValidChatId(text)
    ensures exists digits :: IsDigitString(digits) && Strip(text) == "-100" + digits
  {
    var chatId := Strip(text);
    assert chatId == "-100" + chatId[4..];
  }

  lemma DigitsMakeChatId(text: string, digits: string)
    requires IsDigitString(digits) && Strip(text) == "-100" + digits
    ensures IsValidChatId(text)
  {
    var chatId := Strip(text);
    assert chatId[..4] == "-100" && chatId[4..] == digits;
  }

  lemma BareChatIdRejected()
    ensures !IsValidChatId("-100")
  {
    assert Strip("-100") == "-100" by {
      assert !IsSpace('-') && !IsSpace('0');
    }
  }

  /** The username `support_username_handler` stores: trimmed, with one
      leading '@' removed. */
  function NormalizeSupportUsername(text: string): (username: string)
  {
    var u := Strip(text);
    if StartsWith(u, "@") then u[1..] else u
  }

  /** The stored name is the trimmed text, or the trimmed text without the
      single '@' it started with; a name typed with two '@' keeps one. */
  lemma NormalizeSupportUsernameSpec(text: string)
    ensures var u := NormalizeSupportUsername(text);
      if StartsWith(Strip(text), "@") then "@" + u == Strip(text) else u == Strip(text)
    ensures StartsWith(NormalizeSupportUsername("@@" + text), "@")
  {
    var u := Strip(text);
    if StartsWith(u, "@") {
      assert "@" + u[1..] == u;
    }
    DoubleAtKeepsOne(text);
  }

  lemma DoubleAtKeepsOne(text: string)
    ensures StartsWith(NormalizeSupportUsername("@@" + text), "@")
  {
    var s := "@@" + text;
    assert s[0] == '@' && s[1] == '@' && !IsSpace('@');
    assert LStrip(s) == s;
    var r := RStrip(s);
    assert |r| >= 2;
    assert r[..2] == "@@";
    assert Strip(s) == r;
    assert r[1..][0] == '@';
  }

  /** The test `start_command` uses to recognise the owner: the two ids
      printed as text are equal. */
  predicate IsOwner(userId: int, ownerId: Value)
  {
    ShowInt(userId) == Show(ownerId)
  }

  /** An owner id stored as a number matches exactly that number; one stored
      as text matches the number it spells. */
  lemma IsOwnerSpec(userId: int, owner: int, ownerText: string)
    ensures IsOwner(userId, Int(owner)) <==> userId == owner
    ensures IsOwner(userId, Str(ownerText)) <==> ownerText == ShowInt(userId)
  {
    if userId != owner {
      ShowIntInjective(userId, owner);
    }
  }

  datatype Button = Button(text: string, callback: string)

  /** The "id" of a stored welcome message as it appears in a callback. */
  function MessageId(msg: Record): string
  {
    Show(Get(msg, "id", Str("")))
  }

  predicate IsTextMessage(msg: Record)
  {
    Get(msg, "type", Str("text")) == Str("text")
  }

  /** The text of a text message; `None` where `len` of it would raise. */
  function MessageText(msg: Record): Option<string>
  {
    match Get(msg, "text", Str(""))
    case Str(s) => Some(s)
    case _ => None
  }

  /** The button `edit_messages_callback` shows for one message; `None` where
      building it raises. */
  function EditButton(msg: Record): Option<Button>
  {
    if IsTextMessage(msg) then
      match MessageText(msg)
      case Some(t) => Some(Button("Mensagem de texto: " + Preview(t, 30), "edit_message:" + MessageId(msg)))
      case None => None
    else Some(Button("Mensagem de mídia+texto", "edit_message:" + MessageId(msg)))
  }

  datatype View = NoMessages | Listing(rows: seq<seq<Button>>) | Raised

  const BackToMessages: Button := Button("🔙 Voltar", "config_messages")

  /** `edit_messages_callback`: one button per message, in order, then
      "delete all" and "back"; an empty list shows the "no messages" view. */
  method EditMessagesView(messages: seq<Record>) returns (v: View)
    ensures messages == [] <==> v == NoMessages
    ensures v.Raised? <==> exists i :: 0 <= i < |messages| && EditButton(messages[i]).None?
    ensures v.Listing? ==> (
      && |v.rows| == |messages| + 2
      && (forall i :: 0 <= i < |messages| ==> v.rows[i] == [EditButton(messages[i]).value])
      && v.rows[|messages|] == [Button("🗑 Apagar todas as mensagens", "delete_all_messages")]
      && v.rows[|messages| + 1] == [BackToMessages])
  {
    if messages == [] {
      return NoMessages;
    }
    var rows: seq<seq<Button>> := [];
    for i := 0 to |messages|
      invariant |rows| == i
      invariant forall j :: 0 <= j < i ==> EditButton(messages[j]).Some? && rows[j] == [EditButton(messages[j]).value]
    {
      var b := EditButton(messages[i]);
      if b.None? {
        return Raised;
      }
      rows := rows + [[b.value]];
    }
    rows := rows + [[Button("🗑 Apagar todas as mensagens", "delete_all_messages")], [BackToMessages]];
    return Listing(rows);
  }

  /** Text longer than 30 characters is cut to 30 and marked with "...";
      shorter text is shown whole. */
  lemma EditButtonText(msg: Record)
    requires IsTextMessage(msg) && MessageText(msg).Some?
    ensures var t := MessageText(msg).value;
      var b := EditButton(msg).value;
      (|t| <= 30 ==> b.text == "Mensagem de texto: " + t) &&
      (|t| > 30 ==> b.text == "Mensagem de texto: " + t[..30] + "...")
  {
  }

  /** The label of message `i` in the ordering view; `None` where building it raises. */
  function OrderLabel(i: nat, msg: Record): Option<string>
  {
    if IsTextMessage(msg) then
      match MessageText(msg)
      case Some(t) => Some(ShowInt(i + 1) + ". texto: " + Preview(t, 20))
      case None => None
    else Some(ShowInt(i + 1) + ". foto + texto")
  }

  /** `message_order_callback`: one row per message holding an up arrow (or a
      blank), the numbered label and a down arrow (or a blank), then "back". */
  method MessageOrderView(messages: seq<Record>) returns (v: View)
    ensures messages == [] <==> v == NoMessages
    ensures v.Raised? <==> exists i :: 0 <= i < |messages| && OrderLabel(i, messages[i]).None?
    ensures v.Listing? ==> |v.rows| == |messages| + 1 && v.rows[|messages|] == [BackToMessages]
    ensures v.Listing? ==> forall i :: 0 <= i < |messages| ==>
      |v.rows[i]| == 3
      && (v.rows[i][0].callback == "move_message_up:" + MessageId(messages[i]) <==> i > 0)
      && v.rows[i][1] == Button(OrderLabel(i, messages[i]).value, "noop")
      && (v.rows[i][2].callback == "move_message_down:" + MessageId(messages[i]) <==> i < |messages| - 1)
      && (i == 0 ==> v.rows[i][0] == Button(" ", "noop"))
      && (i == |messages| - 1 ==> v.rows[i][2] == Button(" ", "noop"))
  {
    if messages == [] {
      return NoMessages;
    }
    var rows: seq<seq<Button>> := [];
    for i := 0 to |messages|
      invariant |rows| == i
      invariant forall j :: 0 <= j < i ==> (
        && OrderLabel(j, messages[j]).Some? && |rows[j]| == 3
        && rows[j][0] == (if j > 0 then Button("⬆️", "move_message_up:" + MessageId(messages[j])) else Button(" ", "noop"))
        && rows[j][1] == Button(OrderLabel(j, messages[j]).value, "noop")
        && rows[j][2] == (if j < |messages| - 1 then Button("⬇️", "move_message_down:" + MessageId(messages[j])) else Button(" ", "noop")))
    {
      var id := MessageId(messages[i]);
      var up := if i > 0 then Button("⬆️", "move_message_up:" + id) else Button(" ", "noop");
      var name := OrderLabel(i, messages[i]);
      if name.None? {
        return Raised;
      }
      var down := if i < |messages| - 1 then Button("⬇️", "move_message_down:" + id) else Button(" ", "noop");
      rows := rows + [[up, Button(name.value, "noop"), down]];
    }
    forall i | 0 <= i < |messages|
      ensures rows[i][0].callback == "move_message_up:" + MessageId(messages[i]) <==> i > 0
      ensures rows[i][2].callback == "move_message_down:" + MessageId(messages[i]) <==> i < |messages| - 1
    {
      assert "noop"[0] != ("move_message_up:" + MessageId(messages[i]))[0];
      assert "noop"[0] != ("move_message_down:" + MessageId(messages[i]))[0];
    }
    rows := rows + [[BackToMessages]];
    return Listing(rows);
  }
}
