/**
 * The order bump of a user's bot (`ZENYX/user_bot/order_bump.py`): one row of
 * `order_bump_configs` per owner, and the button offered at checkout. As for
 * the upsell, the table is a map from the owner's id to the row and a price
 * that is not a number makes the write fail.
 */
module OrderBump {

  import opened Wrappers
  import opened Json

  datatype OrderBumpRow = OrderBumpRow(id: string, text: Value, price: int, link: Value, active: bool)

  type OrderBumpTable = map<int, OrderBumpRow>

  /** The table after `save_order_bump_config`, keeping the row id when the
      owner already has one; `None` when the price is not a number. */
  function Upserted(rows: OrderBumpTable, userId: int, config: Record, newId: string): Option<OrderBumpTable>
  {
    match Numeric(Get(config, "price", Int(0)))
    case None => None
    case Some(price) =>
      var id := if userId in rows then rows[userId].id else newId;
      Some(rows[userId := OrderBumpRow(id, Get(config, "text", Str("")), price, Get(config, "link", Str("")),
                                       Truthy(Get(config, "active", Bool(true))))])
  }

  /** The table after `toggle_order_bump`, or `None` without a config. */
  function Toggled(rows: OrderBumpTable, userId: int): Option<OrderBumpTable>
  {
    if userId !in rows then None
    else Some(rows[userId := rows[userId].(active := !rows[userId].active)])
  }

  /** `get_order_bump_config`. */
  function ConfigOf(rows: OrderBumpTable, userId: int): (config: Option<Record>)
    ensures config.Some? <==> userId in rows
  {
    if userId !in rows then None
    else
      var r := rows[userId];
      Some(map["id" := Str(r.id), "text" := r.text, "price" := Int(r.price), "link" := r.link, "active" := Bool(r.active)])
  }

  /** `is_order_bump_active`. */
  predicate IsActive(rows: OrderBumpTable, userId: int)
  {
    ConfigOf(rows, userId).Some? && Get(ConfigOf(rows, userId).value, "active", Bool(false)) == Bool(true)
  }

  datatype BumpButton = BumpButton(text: Value, price: int, callback: string)

  /** `get_order_bump_button`. */
  function Button(rows: OrderBumpTable, userId: int): Option<BumpButton>
  {
    match ConfigOf(rows, userId)
    case None => None
    case Some(config) =>
      if !Truthy(Get(config, "active", Bool(false))) then None
      else Some(BumpButton(Get(config, "text", Str("Order Bump")), Numeric(config["price"]).GetOr(0), "order_bump"))
  }

  /** Saving writes one row for the owner with the defaults "" / 0 / active
      for missing fields, touches no other owner, and reads back as saved. */
  lemma UpsertedSpec(rows: OrderBumpTable, userId: int, config: Record, newId: string)
    ensures Upserted(rows, userId, config, newId).Some? <==> Numeric(Get(config, "price", Int(0))).Some?
    ensures match Upserted(rows, userId, config, newId)
      case None => true
      case Some(t) =>
        && t.Keys == rows.Keys + {userId}
        && (forall u :: u in rows && u != userId ==> t[u] == rows[u])
        && t[userId].id == (if userId in rows then rows[userId].id else newId)
        && ConfigOf(t, userId).Some?
        && ConfigOf(t, userId).value["text"] == Get(config, "text", Str(""))
        && ConfigOf(t, userId).value["link"] == Get(config, "link", Str(""))
        && ConfigOf(t, userId).value["price"] == Int(Numeric(Get(config, "price", Int(0))).value)
        && (IsActive(t, userId) <==> ("active" !in config || Truthy(config["active"])))
  {
  }

  /** A toggle needs a config, flips only `active` (and with it whether the
      bump is active), and two toggles restore the table. */
  lemma ToggledSpec(rows: OrderBumpTable, userId: int)
    ensures Toggled(rows, userId).Some? <==> userId in rows
    ensures match Toggled(rows, userId)
      case None => true
      case Some(t) =>
        && t.Keys == rows.Keys
        && t[userId].(active := rows[userId].active) == rows[userId]
        && (IsActive(t, userId) <==> !IsActive(rows, userId))
        && (forall u :: u in rows && u != userId ==> t[u] == rows[u])
        && Toggled(t, userId) == Some(rows)
  {
    if userId in rows {
      var t := Toggled(rows, userId).value;
      assert t[userId := t[userId].(active := !t[userId].active)] == rows;
    }
  }

  /** The bump is active iff a config exists with `active` set; the button
      exists iff the bump is active, and it shows the stored text and price
      with the `order_bump` callback. The config always has a `text` entry,
      so the "Order Bump" default never applies. */
  lemma ButtonSpec(rows: OrderBumpTable, userId: int)
    ensures IsActive(rows, userId) <==> userId in rows && rows[userId].active
    ensures Button(rows, userId).Some? <==> IsActive(rows, userId)
    ensures Button(rows, userId).Some? ==>
      Button(rows, userId).value == BumpButton(rows[userId].text, rows[userId].price, "order_bump")
  {
  }

  /** The `order_bump_configs` table. */
  class OrderBumpConfigs {
    var rows: OrderBumpTable

    constructor(initial: OrderBumpTable)
      ensures rows == initial
    {
      rows := initial;
    }

    /** `save_order_bump_config`. */
    method SaveOrderBumpConfig(userId: int, config: Record, newId: string) returns (ok: bool)
      modifies this
      ensures ok <==> Upserted(old(rows), userId, config, newId).Some?
      ensures rows == if ok then Upserted(old(rows), userId, config, newId).value else old(rows)
    {
      var t := Upserted(rows, userId, config, newId);
      if t.None? {
        return false;
      }
      rows := t.value;
      return true;
    }

    /** `toggle_order_bump`. */
    method ToggleOrderBump(userId: int) returns (ok: bool)
      modifies this
      ensures ok <==> userId in old(rows)
      ensures rows == if ok then Toggled(old(rows), userId).value else old(rows)
    {
      if userId !in rows {
        return false;
      }
      rows := Toggled(rows, userId).value;
      return true;
    }
  }
}
