/**
 * The support contact of a user's bot (`ZENYX/user_bot/support.py`): one row
 * of `support_configs` per owner, and the reply to the support command.
 */
module Support {

  import opened Wrappers
  import opened Text
  import opened Json
  import UserBotHandlers

  datatype SupportRow = SupportRow(id: string, username: string, createdAt: int)

  type SupportTable = map<int, SupportRow>

  /** The name `save_support_config` stores: trimmed, without one leading
      '@'; `None` when the given name is not text (its `strip()` raises). */
  function SavedName(config: Record): Option<string>
  {
    var name := Get(config, "username", Str(""));
    if name.Str? then Some(UserBotHandlers.NormalizeSupportUsername(name.s)) else None
  }

  /** The table after saving `username`: an existing row keeps its id and
      creation time. */
  function Upserted(rows: SupportTable, userId: int, username: string, newId: string, now: int): SupportTable
  {
    if userId in rows then rows[userId := rows[userId].(username := username)]
    else rows[userId := SupportRow(newId, username, now)]
  }

  /** `get_support_config`. */
  function ConfigOf(rows: SupportTable, userId: int): (config: Option<Record>)
    ensures config.Some? <==> userId in rows
  {
    if userId !in rows then None
    else Some(map["id" := Str(rows[userId].id), "username" := Str(rows[userId].username),
                  "created_at" := Int(rows[userId].createdAt)])
  }

  /** Saving stores the name for the owner alone, keeping id and creation
      time of an existing row, and reads back as saved. */
  lemma UpsertedSpec(rows: SupportTable, userId: int, username: string, newId: string, now: int)
    ensures var t := Upserted(rows, userId, username, newId, now);
      && t.Keys == rows.Keys + {userId}
      && (forall u :: u in rows && u != userId ==> t[u] == rows[u])
      && t[userId].username == username
      && (userId in rows ==> t[userId].id == rows[userId].id && t[userId].createdAt == rows[userId].createdAt)
      && (userId !in rows ==> t[userId].id == newId && t[userId].createdAt == now)
      && ConfigOf(t, userId).Some?
      && ConfigOf(t, userId).value["username"] == Str(username)
  {
  }

  /** The stored name is the trimmed text given, without the one '@' it may
      start with. */
  lemma SavedNameSpec(config: Record)
    ensures SavedName(config).Some? <==> Get(config, "username", Str("")).Str?
    ensures SavedName(config).Some? ==>
      var given := Strip(Get(config, "username", Str("")).s);
      if StartsWith(given, "@") then "@" + SavedName(config).value == given else SavedName(config).value == given
  {
    if Get(config, "username", Str("")).Str? {
      UserBotHandlers.NormalizeSupportUsernameSpec(Get(config, "username", Str("")).s);
    }
  }

  const SupportHeader: string := "📞 *Suporte*\n\n"
  const ContactTail: string := "Nosso suporte estará disponível para resolver suas dúvidas e problemas."
  const NoContactTail: string := "Por favor, tente entrar em contato com o administrador do bot para obter ajuda."
  const ContactLead: string := "Para obter ajuda, entre em contato com "

  /** The reply naming the contact. */
  function ContactText(username: string): string
  {
    SupportHeader + ContactLead + "[@" + username + "](https://t.me/" + username + ").\n\n" + ContactTail
  }

  const NoContactText: string :=
    SupportHeader + "Não há informações de contato de suporte configuradas para este bot.\n\n" + NoContactTail

  /** `handle_support_command`. */
  function SupportReply(rows: SupportTable, userId: int): string
  {
    match ConfigOf(rows, userId)
    case Some(config) => if "username" in config then ContactText(Show(config["username"])) else NoContactText
    case None => NoContactText
  }

  /** The reply names the stored contact exactly when the owner has
      configured one. */
  lemma SupportReplySpec(rows: SupportTable, userId: int)
    ensures userId in rows ==> SupportReply(rows, userId) == ContactText(rows[userId].username)
    ensures userId !in rows ==> SupportReply(rows, userId) == NoContactText
  {
  }

  /** The contact reply links to the contact's profile and differs from the
      reply without a contact. */
  lemma ContactTextSpec(u: string)
    ensures ContactText(u) != NoContactText
    ensures OccursAt(ContactText(u), "[@" + u + "](https://t.me/" + u + ")", |SupportHeader + ContactLead|)
  {
    var link := "[@" + u + "](https://t.me/" + u + ")";
    assert ContactText(u) == SupportHeader + ContactLead + link + (".\n\n" + ContactTail);
    var c := ContactText(u);
    assert c[|c| - 2] == ContactTail[|ContactTail| - 2] == 's';
    assert NoContactText[|NoContactText| - 2] == NoContactTail[|NoContactTail| - 2] == 'a';
  }

  /** The `support_configs` table. */
  class SupportConfigs {
    var rows: SupportTable

    constructor(initial: SupportTable)
      ensures rows == initial
    {
      rows := initial;
    }

    /** `save_support_config`. */
    method SaveSupportConfig(userId: int, config: Record, newId: string, now: int) returns (ok: bool)
      modifies this
      ensures ok <==> SavedName(config).Some?
      ensures rows == if ok then Upserted(old(rows), userId, SavedName(config).value, newId, now) else old(rows)
    {
      var name := SavedName(config);
      if name.None? {
        return false;
      }
      rows := Upserted(rows, userId, name.value, newId, now);
      return true;
    }
  }
}
