/**
 * Plans of a user's bot (`ZENYX/user_bot/plans.py`): the SQL table `plans`
 * as a map from plan id to row, the read-then-write operations on it and the
 * text `format_plan_info` builds. Prices are whole numbers; plan ids (random
 * UUIDs in the source) are passed in.
 */
module UserBotPlans {

  import opened Wrappers
  import opened Json
  import UserBotHandlers

  /** A row of the `plans` table. */
  datatype PlanRow = PlanRow(userId: int, name: string, price: int, duration: string, active: bool)

  /** The fields a caller passes to `save_plan` or `update_plan`; `None` is a
      key missing from the dict. */
  datatype PlanInput = PlanInput(name: Option<string>, price: Option<int>, duration: Option<string>, active: Option<bool>)

  /** A plan as `get_plan`/`get_plans` return it, with its id as text. */
  datatype Plan = Plan(id: string, name: string, price: int, duration: string, active: bool)

  function View(id: string, row: PlanRow): Plan
  {
    Plan(id, row.name, row.price, row.duration, row.active)
  }

  predicate SortedByPrice(l: seq<Plan>)
  {
    forall i, j :: 0 <= i < j < |l| ==> l[i].price <= l[j].price
  }

  predicate PricesAtMost(l: seq<Plan>, k: int)
  {
    forall i :: 0 <= i < |l| ==> l[i].price <= k
  }

  /** Places `p` after every plan that is not dearer. */
  function InsertByPrice(p: Plan, s: seq<Plan>): (r: seq<Plan>)
    ensures multiset(r) == multiset(s) + multiset{p}
  {
    if s == [] then [p]
    else
      var last := s[|s| - 1];
      if last.price <= p.price then s + [p]
      else
        assert s == s[..|s| - 1] + [last];
        InsertByPrice(p, s[..|s| - 1]) + [last]
  }

  lemma {:induction false} InsertByPriceBounded(p: Plan, s: seq<Plan>, k: int)
    requires PricesAtMost(s, k) && p.price <= k
    ensures PricesAtMost(InsertByPrice(p, s), k)
  {
    if s != [] && s[|s| - 1].price > p.price {
      InsertByPriceBounded(p, s[..|s| - 1], k);
    }
  }

  lemma {:induction false} InsertByPriceSorted(p: Plan, s: seq<Plan>)
    requires SortedByPrice(s)
    ensures SortedByPrice(InsertByPrice(p, s))
  {
    if s != [] {
      var last := s[|s| - 1];
      var init := s[..|s| - 1];
      if last.price > p.price {
        InsertByPriceSorted(p, init);
        InsertByPriceBounded(p, init, last.price);
        assert InsertByPrice(p, s) == InsertByPrice(p, init) + [last];
      }
    }
  }

  /** `ORDER BY price ASC`, as an insertion sort. */
  function SortByPrice(l: seq<Plan>): (r: seq<Plan>)
    ensures SortedByPrice(r)
    ensures multiset(r) == multiset(l)
  {
    if l == [] then []
    else
      var init := l[..|l| - 1];
      assert l == init + [l[|l| - 1]];
      InsertByPriceSorted(l[|l| - 1], SortByPrice(init));
      InsertByPrice(l[|l| - 1], SortByPrice(init))
  }

  /** The label `format_plan_info` shows for a plan's duration; a missing
      duration counts as "30_days", anything unknown as lifetime. */
  function DurationLabel(plan: Record): string
  {
    match Get(plan, "duration", Str("30_days"))
    case Str(d) => UserBotHandlers.PlanDurationLabel(d)
    case _ => "Vitalício"
  }

  /** The status `format_plan_info` shows; a missing `active` counts as active. */
  function StatusText(plan: Record): string
  {
    if Truthy(Get(plan, "active", Bool(true))) then "✅ Ativo" else "❌ Inativo"
  }

  /** `format_plan_info(plan)`, given the text `format_price` makes of its price. */
  function FormatPlanInfo(plan: Record, priceText: string): string
  {
    "🏷 *" + Show(Get(plan, "name", Str("Plano"))) + "*\n" +
    "💰 Preço: " + priceText + "\n" +
    "⏱ Duração: " + DurationLabel(plan) + "\n" +
    "📊 Status: " + StatusText(plan)
  }

  /** A plan without a duration is shown as thirty days, an unknown duration
      as lifetime, and the status is "Ativo" exactly when `active` is missing
      or truthy. */
  lemma FormatPlanInfoSpec(plan: Record, priceText: string)
    ensures "duration" !in plan ==> DurationLabel(plan) == "30 Dias"
    ensures "duration" in plan && plan["duration"].Str? && plan["duration"].s !in ["1_day", "7_days", "15_days", "30_days", "3_months", "6_months", "1_year"]
      ==> DurationLabel(plan) == "Vitalício"
    ensures StatusText(plan) == "✅ Ativo" <==> ("active" !in plan || Truthy(plan["active"]))
    ensures var t := FormatPlanInfo(plan, priceText);
      var tail := "📊 Status: " + StatusText(plan);
      |tail| <= |t| && t[|t| - |tail|..] == tail
  {
    var tail := "📊 Status: " + StatusText(plan);
    var head := "🏷 *" + Show(Get(plan, "name", Str("Plano"))) + "*\n" +
      "💰 Preço: " + priceText + "\n" + "⏱ Duração: " + DurationLabel(plan) + "\n";
    assert FormatPlanInfo(plan, priceText) == head + tail;
  }

  /** The row `save_plan` inserts: missing fields default to an empty name,
      price 0, thirty days and active. */
  function NewRow(userId: int, input: PlanInput): PlanRow
  {
    PlanRow(userId, input.name.GetOr(""), input.price.GetOr(0), input.duration.GetOr("30_days"), input.active.GetOr(true))
  }

  /** The row `update_plan` writes: each field the update leaves out keeps its value. */
  function UpdatedRow(row: PlanRow, input: PlanInput): PlanRow
  {
    PlanRow(row.userId, input.name.GetOr(row.name), input.price.GetOr(row.price),
            input.duration.GetOr(row.duration), input.active.GetOr(row.active))
  }

  /** Updating with the fields just saved (all present) gives the row that
      saving them creates; an empty update changes nothing. */
  lemma UpdatedRowSpec(row: PlanRow, input: PlanInput)
    ensures UpdatedRow(row, PlanInput(None, None, None, None)) == row
    ensures input.name.Some? && input.price.Some? && input.duration.Some? && input.active.Some? ==>
      UpdatedRow(row, input) == NewRow(row.userId, input)
    ensures input.name.None? ==> UpdatedRow(row, input).name == row.name
    ensures input.price.None? ==> UpdatedRow(row, input).price == row.price
    ensures input.duration.None? ==> UpdatedRow(row, input).duration == row.duration
    ensures input.active.None? ==> UpdatedRow(row, input).active == row.active
  {
  }

  /** The `plans` table. */
  class PlansTable {
    var rows: map<string, PlanRow>

    constructor(initial: map<string, PlanRow>)
      ensures rows == initial
    {
      rows := initial;
    }

    /** `WHERE id = %s AND user_id = %s` matches a row. */
    predicate Owns(userId: int, planId: string)
      reads this
    {
      planId in rows && rows[planId].userId == userId
    }

    /** `save_plan`: inserts a row under the new id; an id already taken makes
        the insert fail and the call answer `False`. */
    method SavePlan(userId: int, input: PlanInput, planId: string) returns (ok: bool)
      modifies this
      ensures ok <==> planId !in old(rows)
      ensures rows == if ok then old(rows)[planId := NewRow(userId, input)] else old(rows)
    {
      if planId in rows {
        return false;
      }
      rows := rows[planId := NewRow(userId, input)];
      return true;
    }

    /** `get_plan`: the owner's plan with that id, or `None`. */
    method GetPlan(userId: int, planId: string) returns (p: Option<Plan>)
      ensures p.Some? <==> Owns(userId, planId)
      ensures p.Some? ==> p.value == View(planId, rows[planId]) && p.value.id == planId
    {
      if planId in rows && rows[planId].userId == userId {
        return Some(View(planId, rows[planId]));
      }
      return None;
    }

    /** `update_plan`: `False` when the owner has no such plan; otherwise the
        fields present in the update replace the stored ones. */
    method UpdatePlan(userId: int, planId: string, input: PlanInput) returns (ok: bool)
      modifies this
      ensures ok <==> old(Owns(userId, planId))
      ensures rows == if ok then old(rows)[planId := UpdatedRow(old(rows)[planId], input)] else old(rows)
    {
      if !(planId in rows && rows[planId].userId == userId) {
        return false;
      }
      rows := rows[planId := UpdatedRow(rows[planId], input)];
      return true;
    }

    /** `toggle_plan`: `False` when the owner has no such plan; otherwise only
        `active` flips. */
    method TogglePlan(userId: int, planId: string) returns (ok: bool)
      modifies this
      ensures ok <==> old(Owns(userId, planId))
      ensures rows == if ok then old(rows)[planId := old(rows)[planId].(active := !old(rows)[planId].active)] else old(rows)
    {
      if !(planId in rows && rows[planId].userId == userId) {
        return false;
      }
      rows := rows[planId := rows[planId].(active := !rows[planId].active)];
      return true;
    }

    /** `delete_plan`: removes the owner's plan if there is one and always
        answers `True`. */
    method DeletePlan(userId: int, planId: string) returns (ok: bool)
      modifies this
      ensures ok
      ensures rows == if old(Owns(userId, planId)) then old(rows) - {planId} else old(rows)
    {
      if planId in rows && rows[planId].userId == userId {
        rows := rows - {planId};
      }
      return true;
    }

    /** The owner's plans, in no particular order. */
    ghost function OwnedPlans(userId: int): set<Plan>
      reads this
    {
      set id | id in rows && rows[id].userId == userId :: View(id, rows[id])
    }

    /** `get_plans`: the owner's plans, and only theirs, each once, cheapest
        first. */
    method GetPlans(userId: int) returns (plans: seq<Plan>)
      ensures SortedByPrice(plans)
      ensures forall p :: p in plans <==> p in OwnedPlans(userId)
      ensures forall p :: multiset(plans)[p] <= 1
    {
      var remaining := rows.Keys;
      var found: seq<Plan> := [];
      while remaining != {}
        invariant remaining <= rows.Keys
        invariant forall p :: p in found <==> p in OwnedPlans(userId) && p.id !in remaining
        invariant forall p :: multiset(found)[p] <= 1
        decreases remaining
      {
        var id :| id in remaining;
        if rows[id].userId == userId {
          assert View(id, rows[id]) !in found;
          found := found + [View(id, rows[id])];
        }
        remaining := remaining - {id};
      }
      plans := SortByPrice(found);
      assert forall p :: p in plans <==> p in found by {
        forall p ensures p in plans <==> p in found {
          assert p in plans <==> p in multiset(plans);
          assert p in found <==> p in multiset(found);
        }
      }
    }
  }
}
