/**
 * Welcome-message configuration (`ZENYX/user_bot/message_config.py`): the
 * conversation state (aiogram's FSM context) as a small class, the handlers
 * that append a text or media message to a bot's `welcome_messages` and save
 * the bot, and the buttons of the editing list.
 */
module MessageConfig {

  import opened Wrappers
  import opened Json
  import opened Store
  import opened ModelsUserBot
  import UserBotHandlers

  /** The per-chat conversation state: the current state name and its data. */
  class FsmContext {
    var state: Option<string>
    var data: Record

    constructor(state: Option<string>, data: Record)
      ensures this.state == state && this.data == data
    {
      this.state := state;
      this.data := data;
    }

    /** `state.finish()`: no current state and no data. */
    method Finish()
      modifies this
      ensures state == None && data == map[]
    {
      state := None;
      data := map[];
    }
  }

  /** The entry `receive_text_message` appends. */
  function TextEntry(id: nat, content: Value): Value
  {
    Obj(map["id" := Int(id), "type" := Str("text"), "content" := content])
  }

  /** The entry `receive_media_caption` appends. */
  function MediaEntry(id: nat, mediaType: Value, mediaId: Value, caption: Value): Value
  {
    Obj(map["id" := Int(id), "type" := Str("media_text"), "media_type" := mediaType,
            "media_id" := mediaId, "text" := caption])
  }

  /** The entry at position `i` carries the id `i + 1`. */
  predicate NumberedInOrder(items: seq<Value>)
  {
    forall i :: 0 <= i < |items| ==> items[i].Obj? && Get(items[i].fields, "id", Null) == Int(i + 1)
  }

  /** Appending with id `len + 1` keeps a list numbered 1, 2, ... in order,
      and leaves every earlier entry as it was. */
  lemma {:induction false} AppendKeepsNumbering(items: seq<Value>, entry: Value)
    requires NumberedInOrder(items)
    requires entry.Obj? && Get(entry.fields, "id", Null) == Int(|items| + 1)
    ensures NumberedInOrder(items + [entry])
    ensures (items + [entry])[..|items|] == items
  {
    var l := items + [entry];
    forall i | 0 <= i < |l|
      ensures l[i].Obj? && Get(l[i].fields, "id", Null) == Int(i + 1)
    {
      if i < |items| {
        assert l[i] == items[i];
      }
    }
  }

  /** The bot with one more welcome message; `None` where its
      `welcome_messages` is not a list (appending to it raises). */
  function Appended(b: UserBot, entry: nat -> Value): Option<UserBot>
  {
    match b.welcomeMessages
    case List(items) => Some(b.(welcomeMessages := List(items + [entry(|items| + 1)])))
    case _ => None
  }

  datatype Outcome =
    | Ignored            // the handler returned before doing anything
    | Rejected           // the message was refused with a reply
    | MediaReceived      // the media was recorded and a caption is awaited
    | NotFound           // "Bot não encontrado", state finished
    | Added(bot: UserBot)
    | Raised             // an exception escaped the handler

  /** Reads the bot, appends the entry and saves it; the state is finished
      unless loading or appending raises. */
  method AppendAndSave(fsm: FsmContext, db: Database, botId: Value, entry: nat -> Value, now: int)
    returns (r: Outcome)
    modifies fsm, db
    ensures r.NotFound? || r.Added? || r.Raised?
    ensures r.NotFound? <==> Load(old(db.ks), botId, now).Missing?
    ensures r.Added? <==> Load(old(db.ks), botId, now).Fetched? && Appended(Load(old(db.ks), botId, now).value, entry).Some?
    ensures r.Added? ==> r.bot == Appended(Load(old(db.ks), botId, now).value, entry).value
    ensures r.Added? ==> forall n :: Load(db.ks, r.bot.botId, n) == Fetched(r.bot)
    ensures r.Added? ==> db.ks == Saved(old(db.ks), r.bot)
    ensures !r.Added? ==> db.ks == old(db.ks)
    ensures r.Raised? ==> fsm.state == old(fsm.state) && fsm.data == old(fsm.data)
    ensures !r.Raised? ==> fsm.state == None && fsm.data == map[]
  {
    var loaded := Load(db.ks, botId, now);
    if loaded.Missing? {
      fsm.Finish();
      return NotFound;
    }
    if loaded.KeyError? {
      return Raised;
    }
    var b := Appended(loaded.value, entry);
    if b.None? {
      return Raised;
    }
    Save(b.value, db);
    fsm.Finish();
    return Added(b.value);
  }

  /** `receive_text_message`: only while a text message is expected, appends
      it with id `len + 1`. */
  method ReceiveTextMessage(fsm: FsmContext, db: Database, botId: Value, text: Value, now: int)
    returns (r: Outcome)
    modifies fsm, db
    ensures Get(old(fsm.data), "message_type", Null) != Str("text") ==>
      r == Ignored && fsm.state == old(fsm.state) && fsm.data == old(fsm.data) && db.ks == old(db.ks)
    ensures r.Added? ==> (Load(old(db.ks), botId, now).Fetched? && (
      var b := Load(old(db.ks), botId, now).value;
      b.welcomeMessages.List? &&
      r.bot == b.(welcomeMessages := List(b.welcomeMessages.items + [TextEntry(|b.welcomeMessages.items| + 1, text)])) &&
      forall n :: Load(db.ks, r.bot.botId, n) == Fetched(r.bot)))
    ensures r.Added? ==> db.ks == Saved(old(db.ks), r.bot)
    ensures !r.Added? ==> db.ks == old(db.ks)
    ensures r.NotFound? ==> Load(old(db.ks), botId, now).Missing? && db.ks == old(db.ks)
  {
    if Get(fsm.data, "message_type", Null) != Str("text") {
      return Ignored;
    }
    r := AppendAndSave(fsm, db, botId, (n: nat) => TextEntry(n, text), now);
  }

  /** What a Telegram message carries: the file id of its (largest) photo,
      its video and its animation, when present. */
  datatype Media = Media(photo: Option<string>, video: Option<string>, animation: Option<string>)

  /** The media type and file id recorded; a photo wins over a video, which
      wins over an animation. */
  function ChooseMedia(m: Media): (chosen: Option<(string, string)>)
  {
    if m.photo.Some? then Some(("photo", m.photo.value))
    else if m.video.Some? then Some(("video", m.video.value))
    else if m.animation.Some? then Some(("animation", m.animation.value))
    else None
  }

  /** Nothing is chosen exactly when there is no media, and a present photo
      or video is never passed over for a later kind. */
  lemma ChooseMediaSpec(m: Media)
    ensures ChooseMedia(m).None? <==> m.photo.None? && m.video.None? && m.animation.None?
    ensures m.photo.Some? ==> ChooseMedia(m) == Some(("photo", m.photo.value))
    ensures m.photo.None? && m.video.Some? ==> ChooseMedia(m) == Some(("video", m.video.value))
    ensures ChooseMedia(m).Some? && ChooseMedia(m).value.0 == "animation" ==> m.photo.None? && m.video.None?
  {
  }

  /** `receive_media_message`: a message without media is refused; while a
      media message is expected the chosen media is recorded and the caption
      is asked for. */
  method ReceiveMediaMessage(fsm: FsmContext, m: Media) returns (r: Outcome)
    modifies fsm
    ensures ChooseMedia(m).None? ==> r == Rejected
    ensures r == MediaReceived <==> ChooseMedia(m).Some? && Get(old(fsm.data), "message_type", Null) == Str("media_text")
    ensures r == MediaReceived ==>
      fsm.state == Some("waiting_for_media_caption") &&
      fsm.data == old(fsm.data)["media_type" := Str(ChooseMedia(m).value.0)]["media_id" := Str(ChooseMedia(m).value.1)]
    ensures r != MediaReceived ==> fsm.state == old(fsm.state) && fsm.data == old(fsm.data)
  {
    var chosen := ChooseMedia(m);
    if chosen.None? {
      return Rejected;
    }
    if Get(fsm.data, "message_type", Null) != Str("media_text") {
      return Ignored;
    }
    fsm.data := fsm.data["media_type" := Str(chosen.value.0)]["media_id" := Str(chosen.value.1)];
    fsm.state := Some("waiting_for_media_caption");
    return MediaReceived;
  }

  /** The caption stored: none for "/pular", the text otherwise. */
  function Caption(text: Value): Value
  {
    if text == Str("/pular") then Null else text
  }

  /** `receive_media_caption`: only when a media message with a recorded
      media id is being built, appends it with id `len + 1` and the caption. */
  method ReceiveMediaCaption(fsm: FsmContext, db: Database, botId: Value, text: Value, now: int)
    returns (r: Outcome)
    modifies fsm, db
    ensures Get(old(fsm.data), "message_type", Null) != Str("media_text") || !Truthy(Get(old(fsm.data), "media_id", Null)) ==>
      r == Ignored && fsm.state == old(fsm.state) && fsm.data == old(fsm.data) && db.ks == old(db.ks)
    ensures r.Added? ==> (Load(old(db.ks), botId, now).Fetched? && (
      var b := Load(old(db.ks), botId, now).value;
      var d := old(fsm.data);
      b.welcomeMessages.List? &&
      r.bot == b.(welcomeMessages := List(b.welcomeMessages.items +
        [MediaEntry(|b.welcomeMessages.items| + 1, Get(d, "media_type", Null), Get(d, "media_id", Null), Caption(text))])) &&
      forall n :: Load(db.ks, r.bot.botId, n) == Fetched(r.bot)))
    ensures r.Added? ==> db.ks == Saved(old(db.ks), r.bot)
    ensures !r.Added? ==> db.ks == old(db.ks)
    ensures r.NotFound? ==> Load(old(db.ks), botId, now).Missing? && db.ks == old(db.ks)
  {
    var mediaType := Get(fsm.data, "media_type", Null);
    var mediaId := Get(fsm.data, "media_id", Null);
    if Get(fsm.data, "message_type", Null) != Str("media_text") || !Truthy(mediaId) {
      return Ignored;
    }
    var caption := Caption(text);
    r := AppendAndSave(fsm, db, botId, (n: nat) => MediaEntry(n, mediaType, mediaId, caption), now);
  }

  /** The button `edit_messages_callback` shows for entry `i`; `None` where
      building it raises (`msg["type"]` or `msg["content"]` missing). */
  function EditEntryButton(i: nat, entry: Value): Option<UserBotHandlers.Button>
  {
    if !entry.Obj? || "type" !in entry.fields then None
    else if entry.fields["type"] == Str("text") then
      if "content" in entry.fields && entry.fields["content"].Str? then
        var s := entry.fields["content"].s;
        var n := if |s| < 30 then |s| else 30;
        Some(UserBotHandlers.Button("Mensagem de texto: " + s[..n] + "...", "edit_message:" + ShowInt(i)))
      else None
    else Some(UserBotHandlers.Button("Mensagem de mídia+texto", "edit_message:" + ShowInt(i)))
  }

  /** Text labels show at most 30 characters of the content and always end in
      "...", even when nothing was cut; the callback names the position. */
  lemma EditEntryButtonSpec(i: nat, entry: Value)
    requires EditEntryButton(i, entry).Some?
    ensures var b := EditEntryButton(i, entry).value;
      b.callback == "edit_message:" + ShowInt(i) &&
      (entry.fields["type"] == Str("text") ==>
        |b.text| <= |"Mensagem de texto: "| + 30 + 3 && b.text[|b.text| - 3..] == "...")
  {
  }

  datatype EditView = BotMissing | Empty | Buttons(buttons: seq<UserBotHandlers.Button>) | Failed

  /** `edit_messages_callback`: one button per welcome message, then "delete
      all" and "back". */
  method EditMessagesList(db: Database, botId: Value, now: int) returns (v: EditView)
    ensures v.BotMissing? <==> Load(db.ks, botId, now).Missing?
    ensures v.Empty? <==> Load(db.ks, botId, now).Fetched? && !Truthy(Load(db.ks, botId, now).value.welcomeMessages)
    ensures v.Buttons? ==> (Load(db.ks, botId, now).Fetched? && (
      var w := Load(db.ks, botId, now).value.welcomeMessages;
      w.List? && |v.buttons| == |w.items| + 2 &&
      (forall i :: 0 <= i < |w.items| ==> EditEntryButton(i, w.items[i]) == Some(v.buttons[i])) &&
      v.buttons[|w.items|] == UserBotHandlers.Button("🗑 Apagar todas as mensagens", "delete_all_messages") &&
      v.buttons[|w.items| + 1] == UserBotHandlers.BackToMessages))
  {
    var loaded := Load(db.ks, botId, now);
    if loaded.Missing? {
      return BotMissing;
    }
    if loaded.KeyError? {
      return Failed;
    }
    var w := loaded.value.welcomeMessages;
    if !Truthy(w) {
      return Empty;
    }
    if !w.List? {
      return Failed;
    }
    var buttons: seq<UserBotHandlers.Button> := [];
    for i := 0 to |w.items|
      invariant |buttons| == i
      invariant forall j :: 0 <= j < i ==> EditEntryButton(j, w.items[j]) == Some(buttons[j])
    {
      var b := EditEntryButton(i, w.items[i]);
      if b.None? {
        return Failed;
      }
      buttons := buttons + [b.value];
    }
    buttons := buttons + [UserBotHandlers.Button("🗑 Apagar todas as mensagens", "delete_all_messages"), UserBotHandlers.BackToMessages];
    return Buttons(buttons);
  }
}
