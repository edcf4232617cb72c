/**
 * The upsell offer of a user's bot (`ZENYX/user_bot/upsell.py`): one row of
 * `upsell_configs` per owner, and the offer sent after a payment. The SQL
 * table is a map from the owner's id to the row; the price column is numeric,
 * so a price that is not a number makes the write fail.
 */
module Upsell {

  import opened Wrappers
  import opened Json

  datatype UpsellRow = UpsellRow(id: string, text: Value, buttonText: Value, price: int, link: Value, active: bool)

  type UpsellTable = map<int, UpsellRow>

  /** The row a save writes for the given config, keeping the row id when the
      owner already has one; `None` when the price is not a number. */
  function Upserted(rows: UpsellTable, userId: int, config: Record, newId: string): Option<UpsellTable>
  {
    match Numeric(Get(config, "price", Int(0)))
    case None => None
    case Some(price) =>
      var id := if userId in rows then rows[userId].id else newId;
      Some(rows[userId := UpsellRow(id, Get(config, "text", Str("")), Get(config, "button_text", Str("")),
                                    price, Get(config, "link", Str("")), Truthy(Get(config, "active", Bool(true))))])
  }

  /** The flipped table of `toggle_upsell`, or `None` without a config. */
  function Toggled(rows: UpsellTable, userId: int): Option<UpsellTable>
  {
    if userId !in rows then None
    else Some(rows[userId := rows[userId].(active := !rows[userId].active)])
  }

  /** `get_upsell_config`: the owner's config as a dict, or `None`. */
  function ConfigOf(rows: UpsellTable, userId: int): (config: Option<Record>)
    ensures config.Some? <==> userId in rows
  {
    if userId !in rows then None
    else
      var r := rows[userId];
      Some(map["id" := Str(r.id), "text" := r.text, "button_text" := r.buttonText,
               "price" := Int(r.price), "link" := r.link, "active" := Bool(r.active)])
  }

  /** Saving writes exactly one row for the owner, with the given fields and
      the defaults "" / 0 / active for the missing ones, and touches no other
      owner; a later read returns what was saved. */
  lemma UpsertedSpec(rows: UpsellTable, userId: int, config: Record, newId: string)
    ensures Upserted(rows, userId, config, newId).Some? <==> Numeric(Get(config, "price", Int(0))).Some?
    ensures match Upserted(rows, userId, config, newId)
      case None => true
      case Some(t) =>
        && t.Keys == rows.Keys + {userId}
        && (forall u :: u in rows && u != userId ==> t[u] == rows[u])
        && (userId in rows ==> t[userId].id == rows[userId].id)
        && (userId !in rows ==> t[userId].id == newId)
        && ConfigOf(t, userId).Some?
        && ConfigOf(t, userId).value["text"] == Get(config, "text", Str(""))
        && ConfigOf(t, userId).value["button_text"] == Get(config, "button_text", Str(""))
        && ConfigOf(t, userId).value["link"] == Get(config, "link", Str(""))
        && ConfigOf(t, userId).value["price"] == Int(Numeric(Get(config, "price", Int(0))).value)
        && ConfigOf(t, userId).value["active"] == Bool("active" !in config || Truthy(config["active"]))
  {
  }

  /** A toggle needs a config, flips only `active`, and two toggles restore
      the table. */
  lemma ToggledSpec(rows: UpsellTable, userId: int)
    ensures Toggled(rows, userId).Some? <==> userId in rows
    ensures match Toggled(rows, userId)
      case None => true
      case Some(t) =>
        && t.Keys == rows.Keys
        && t[userId].active == !rows[userId].active
        && t[userId].(active := rows[userId].active) == rows[userId]
        && (forall u :: u in rows && u != userId ==> t[u] == rows[u])
        && Toggled(t, userId) == Some(rows)
  {
    if userId in rows {
      var t := Toggled(rows, userId).value;
      assert t[userId := t[userId].(active := !t[userId].active)] == rows;
    }
  }

  /** The `upsell_configs` table. */
  class UpsellConfigs {
    var rows: UpsellTable

    constructor(initial: UpsellTable)
      ensures rows == initial
    {
      rows := initial;
    }

    /** `save_upsell_config`: `True` and the row upserted, or `False` and
        nothing written when the price is not a number. */
    method SaveUpsellConfig(userId: int, config: Record, newId: string) returns (ok: bool)
      modifies this
      ensures ok <==> Upserted(old(rows), userId, config, newId).Some?
      ensures rows == if ok then Upserted(old(rows), userId, config, newId).value else old(rows)
    {
      var t := Upserted(rows, userId, config, newId);
      if t.None? {
        return false;
      }
      rows := t.value;
      return true;
    }

    /** `toggle_upsell`. */
    method ToggleUpsell(userId: int) returns (ok: bool)
      modifies this
      ensures ok <==> userId in old(rows)
      ensures rows == if ok then Toggled(old(rows), userId).value else old(rows)
    {
      if userId !in rows {
        return false;
      }
      rows := Toggled(rows, userId).value;
      return true;
    }
  }

  /** The payment `send_upsell_offer` requests. */
  function UpsellRequest(userId: Value, paymentId: Value, config: Record): Record
  {
    map["user_id" := userId, "amount" := Get(config, "price", Null), "payment_type" := Str("upsell"),
        "original_payment_id" := paymentId, "upsell_link" := Get(config, "link", Null)]
  }

  /** The message sent: to whom, its text, and its one URL button. */
  datatype Offer = Offer(chatId: Value, text: Value, buttonText: Value, url: Value)

  /** `send_upsell_offer` after its wait: the offer sent, if any. The config is
      read from the table, `botAvailable` says whether a bot instance exists,
      and `pay` is the payment gateway (`None` when it raises). */
  function UpsellOffer(rows: UpsellTable, ownerId: int, botAvailable: bool, userId: Value, paymentId: Value,
                       pay: Record -> Option<Record>): Option<Offer>
  {
    match ConfigOf(rows, ownerId)
    case None => None
    case Some(config) =>
      if !Truthy(Get(config, "active", Bool(false))) || !botAvailable then None
      else match pay(UpsellRequest(userId, paymentId, config))
        case None => None
        case Some(result) =>
          var url := Get(result, "payment_url", Str(""));
          if !Truthy(Get(result, "success", Bool(false))) || !Truthy(url) then None
          else Some(Offer(userId, config["text"], config["button_text"], url))
  }

  /** An offer goes out exactly when the config exists and is active, a bot
      is available, and the payment succeeded with a URL; it goes to the buyer
      with the configured text and button, and its payment request names the
      original payment and the upsell link. */
  lemma UpsellOfferSpec(rows: UpsellTable, ownerId: int, botAvailable: bool, userId: Value, paymentId: Value,
                        pay: Record -> Option<Record>)
    ensures ownerId !in rows || !rows[ownerId].active || !botAvailable ==>
      UpsellOffer(rows, ownerId, botAvailable, userId, paymentId, pay).None?
    ensures ownerId in rows ==>
      var req := UpsellRequest(userId, paymentId, ConfigOf(rows, ownerId).value);
      && req["original_payment_id"] == paymentId
      && req["upsell_link"] == rows[ownerId].link
      && req["amount"] == Int(rows[ownerId].price)
      && (UpsellOffer(rows, ownerId, botAvailable, userId, paymentId, pay).Some? <==>
           rows[ownerId].active && botAvailable && pay(req).Some? &&
           Truthy(Get(pay(req).value, "success", Bool(false))) &&
           Truthy(Get(pay(req).value, "payment_url", Str(""))))
      && (UpsellOffer(rows, ownerId, botAvailable, userId, paymentId, pay).Some? ==>
           UpsellOffer(rows, ownerId, botAvailable, userId, paymentId, pay).value ==
             Offer(userId, rows[ownerId].text, rows[ownerId].buttonText, Get(pay(req).value, "payment_url", Str(""))))
  {
  }
}
