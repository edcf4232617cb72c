/**
 * The remarketing send of a user's bot (`ZENYX/user_bot/remarketing.py`).
 * The recipients come from a SQL query and are passed in; creating a payment
 * is an oracle `pay(request)` giving the gateway's answer, or `None` when it
 * raises; sending is an oracle `delivered(user, keyboard)` telling whether the
 * Telegram call succeeded.
 */
module Remarketing {

  import opened Wrappers
  import opened Text
  import opened Json

  /** The single URL button `promo_keyboard` holds. */
  datatype Keyboard = Keyboard(text: string, url: Value)

  /** The promotion of a message: its button text, whether it is custom, and
      the promotion dict itself. */
  datatype Promotion = Promotion(text: string, custom: bool, fields: Record)

  /** `f"{price:.2f}"` for the values that format; `None` where it raises
      (text, `None`, lists and dicts). */
  function TwoDecimals(v: Value): Option<string>
  {
    match v
    case Int(i) => Some(ShowInt(i) + ".00")
    case Bool(b) => Some(if b then "1.00" else "0.00")
    case _ => None
  }

  /** The promotion set-up before the loop: `Some(None)` without a promotion,
      `None` where it raises (the promotion is not a dict or its price does not
      format). */
  function PromotionSetup(messageData: Record): Option<Option<Promotion>>
  {
    if "promotion" !in messageData then Some(None)
    else match messageData["promotion"]
      case Obj(promo) =>
        (match TwoDecimals(Get(promo, "price", Int(0)))
         case None => None
         case Some(price) =>
           var custom := Truthy(Get(promo, "custom", Bool(false)));
           var text := if custom then "🔥 APROVEITAR OFERTA: R$ " + price + " 🔥"
                       else "🔥 APROVEITAR " + Show(Get(promo, "plan_name", Str("Plano"))) + ": R$ " + price + " 🔥";
           Some(Some(Promotion(text, custom, promo))))
      case _ => None
  }

  /** A custom promotion's button is the generic offer; otherwise it names
      the plan ("Plano" when unnamed). */
  lemma PromotionTextSpec(messageData: Record)
    requires PromotionSetup(messageData).Some? && PromotionSetup(messageData).value.Some?
    ensures var p := PromotionSetup(messageData).value.value;
      var price := TwoDecimals(Get(p.fields, "price", Int(0))).value;
      (p.custom ==> p.text == "🔥 APROVEITAR OFERTA: R$ " + price + " 🔥") &&
      (!p.custom ==> p.text == "🔥 APROVEITAR " + Show(Get(p.fields, "plan_name", Str("Plano"))) + ": R$ " + price + " 🔥")
  {
  }

  /** The payment requested for one recipient. */
  function PaymentRequest(user: Value, p: Promotion): Record
  {
    var base := map["user_id" := user, "amount" := Get(p.fields, "price", Int(0)), "payment_type" := Str("remarketing")];
    if p.custom then base
    else base["plan_id" := Get(p.fields, "plan_id", Null)]["duration" := Get(p.fields, "plan_duration", Null)]
  }

  /** Plan id and duration are requested only for a plan promotion. */
  lemma PaymentRequestSpec(user: Value, p: Promotion)
    ensures PaymentRequest(user, p)["user_id"] == user
    ensures PaymentRequest(user, p)["payment_type"] == Str("remarketing")
    ensures "plan_id" in PaymentRequest(user, p) <==> !p.custom
    ensures "duration" in PaymentRequest(user, p) <==> !p.custom
  {
  }

  /** The keyboard after one recipient's payment: replaced when the payment
      succeeded with a non-empty URL, kept as it was otherwise; `None` when
      the payment call raised. */
  function NextKeyboard(kb: Option<Keyboard>, user: Value, p: Promotion, pay: Record -> Option<Record>): Option<Option<Keyboard>>
  {
    match pay(PaymentRequest(user, p))
    case None => None
    case Some(result) =>
      var url := Get(result, "payment_url", Str(""));
      if Truthy(Get(result, "success", Bool(false))) && Truthy(url)
      then Some(Some(Keyboard(p.text, url)))
      else Some(kb)
  }

  /** The keyboard each recipient is sent, in order; `None` when some payment
      call raises. Without a promotion nobody gets a keyboard. */
  function Keyboards(users: seq<Value>, promo: Option<Promotion>, pay: Record -> Option<Record>): (r: Option<seq<Option<Keyboard>>>)
    ensures r.Some? ==> |r.value| == |users|
  {
    if users == [] then Some([])
    else match Keyboards(users[..|users| - 1], promo, pay)
      case None => None
      case Some(kbs) =>
        var prev := if kbs == [] then None else kbs[|kbs| - 1];
        if promo.None? then Some(kbs + [None])
        else match NextKeyboard(prev, users[|users| - 1], promo.value, pay)
          case None => None
          case Some(kb) => Some(kbs + [kb])
  }

  /** A recipient whose payment fails gets the keyboard the previous recipient
      got, and without a promotion no recipient gets one. */
  lemma {:induction false} KeyboardCarriedOver(users: seq<Value>, promo: Option<Promotion>, pay: Record -> Option<Record>, i: nat)
    requires Keyboards(users, promo, pay).Some? && 0 < i < |users|
    requires promo.Some? && pay(PaymentRequest(users[i], promo.value)).Some?
    requires !Truthy(Get(pay(PaymentRequest(users[i], promo.value)).value, "success", Bool(false)))
    ensures Keyboards(users, promo, pay).value[i] == Keyboards(users, promo, pay).value[i - 1]
    decreases |users|
  {
    var init := users[..|users| - 1];
    assert Keyboards(init, promo, pay).Some?;
    if i < |users| - 1 {
      assert init[i] == users[i];
      KeyboardCarriedOver(init, promo, pay, i);
    }
  }

  lemma {:induction false} NoPromotionNoKeyboard(users: seq<Value>, pay: Record -> Option<Record>)
    ensures Keyboards(users, None, pay).Some?
    ensures forall i :: 0 <= i < |users| ==> Keyboards(users, None, pay).value[i].None?
    decreases |users|
  {
    if users != [] {
      NoPromotionNoKeyboard(users[..|users| - 1], pay);
    }
  }

  const KnownTypes: seq<string> := ["text", "photo", "video", "animation", "voice", "audio", "document"]

  /** The message is of a kind the send loop knows how to send. */
  predicate KnownType(messageData: Record)
  {
    var t := Get(messageData, "type", Str("text"));
    t.Str? && t.s in KnownTypes
  }

  /** Recipients counted as sent: a send that returned, or any recipient when
      the message type is unknown (nothing is sent, yet the counter moves). */
  function CountSent(users: seq<Value>, kbs: seq<Option<Keyboard>>, known: bool, delivered: (Value, Option<Keyboard>) -> bool): (n: nat)
    requires |kbs| == |users|
    ensures n <= |users|
  {
    if users == [] then 0
    else CountSent(users[..|users| - 1], kbs[..|kbs| - 1], known, delivered) +
         (if !known || delivered(users[|users| - 1], kbs[|kbs| - 1]) then 1 else 0)
  }

  /** What `send_remarketing_message` returns. */
  function RemarketingResult(users: seq<Value>, botAvailable: bool, messageData: Record,
                             pay: Record -> Option<Record>, delivered: (Value, Option<Keyboard>) -> bool): nat
  {
    if users == [] || !botAvailable then 0
    else match PromotionSetup(messageData)
      case None => 0
      case Some(promo) =>
        LoopResult(users, promo, KnownType(messageData), pay, delivered)
  }

  /** `send_remarketing_message`: per-recipient send failures are caught and
      the loop goes on; any other failure makes the whole call answer 0. */
  method SendRemarketingMessage(users: seq<Value>, botAvailable: bool, messageData: Record,
                                pay: Record -> Option<Record>, delivered: (Value, Option<Keyboard>) -> bool)
    returns (sent: nat)
    ensures sent == RemarketingResult(users, botAvailable, messageData, pay, delivered)
    ensures sent <= |users|
    ensures users == [] || !botAvailable ==> sent == 0
  {
    if users == [] || !botAvailable {
      return 0;
    }
    var setup := PromotionSetup(messageData);
    if setup.None? {
      return 0;
    }
    sent := SendToRecipients(users, setup.value, KnownType(messageData), pay, delivered);
  }

  /** What the send loop counts over all recipients; 0 when a payment call
      raises part-way. */
  function LoopResult(users: seq<Value>, promo: Option<Promotion>, known: bool,
                      pay: Record -> Option<Record>, delivered: (Value, Option<Keyboard>) -> bool): nat
  {
    match Keyboards(users, promo, pay)
    case None => 0
    case Some(kbs) => CountSent(users, kbs, known, delivered)
  }

  /** The send loop itself: each recipient's keyboard is worked out from the
      previous one, and a raising payment call abandons the run. */
  method SendToRecipients(users: seq<Value>, promo: Option<Promotion>, known: bool,
                          pay: Record -> Option<Record>, delivered: (Value, Option<Keyboard>) -> bool)
    returns (sent: nat)
    ensures sent == LoopResult(users, promo, known, pay, delivered)
  {
    var kb: Option<Keyboard> := None;
    ghost var kbs: seq<Option<Keyboard>> := [];
    sent := 0;
    for i := 0 to |users|
      invariant SentSoFar(users[..i], promo, known, pay, delivered, kbs, kb, sent)
    {
      var next := if promo.Some? then NextKeyboard(kb, users[i], promo.value, pay) else Some(None);
      SentStep(users, promo, known, pay, delivered, i, kbs, kb, sent, next);
      if next.None? {
        return 0;
      }
      kb := next.value;
      kbs := kbs + [kb];
      if !known || delivered(users[i], kb) {
        sent := sent + 1;
      }
    }
    assert users[..|users|] == users;
  }

  /** The send loop's state after the recipients `done`: the keyboards they
      got, the last of them, and how many were counted. */
  ghost predicate SentSoFar(done: seq<Value>, promo: Option<Promotion>, known: bool, pay: Record -> Option<Record>,
                            delivered: (Value, Option<Keyboard>) -> bool, kbs: seq<Option<Keyboard>>,
                            kb: Option<Keyboard>, sent: nat)
  {
    && Keyboards(done, promo, pay) == Some(kbs)
    && |kbs| == |done|
    && kb == (if kbs == [] then None else kbs[|kbs| - 1])
    && sent == CountSent(done, kbs, known, delivered)
  }

  /** One step of the send loop: a raising payment call dooms the run, any
      other outcome extends the loop state by one recipient. */
  lemma SentStep(users: seq<Value>, promo: Option<Promotion>, known: bool, pay: Record -> Option<Record>,
                 delivered: (Value, Option<Keyboard>) -> bool, i: nat, kbs: seq<Option<Keyboard>>,
                 kb: Option<Keyboard>, sent: nat, next: Option<Option<Keyboard>>)
    requires i < |users| && SentSoFar(users[..i], promo, known, pay, delivered, kbs, kb, sent)
    requires next == if promo.Some? then NextKeyboard(kb, users[i], promo.value, pay) else Some(None)
    ensures next.None? ==> Keyboards(users, promo, pay).None?
    ensures next.Some? ==> SentSoFar(users[..i + 1], promo, known, pay, delivered, kbs + [next.value], next.value,
      sent + if !known || delivered(users[i], next.value) then 1 else 0)
  {
    KeyboardsStep(users, promo, pay, i, kbs, kb);
    if next.None? {
      KeyboardsFailurePersists(users, promo, pay, i + 1);
    } else {
      CountSentStep(users, kbs, next.value, known, delivered, i);
    }
  }

  /** One step of the send loop, stated on `Keyboards`. */
  lemma KeyboardsStep(users: seq<Value>, promo: Option<Promotion>, pay: Record -> Option<Record>,
                      i: nat, kbs: seq<Option<Keyboard>>, kb: Option<Keyboard>)
    requires i < |users| && Keyboards(users[..i], promo, pay) == Some(kbs) && |kbs| == i
    requires kb == (if kbs == [] then None else kbs[|kbs| - 1])
    ensures var next := if promo.Some? then NextKeyboard(kb, users[i], promo.value, pay) else Some(None);
      Keyboards(users[..i + 1], promo, pay) == if next.None? then None else Some(kbs + [next.value])
  {
    assert users[..i + 1][..i] == users[..i];
  }

  /** Once a payment call raises, the whole run fails. */
  lemma {:induction false} KeyboardsFailurePersists(users: seq<Value>, promo: Option<Promotion>,
                                                    pay: Record -> Option<Record>, j: nat)
    requires j <= |users| && Keyboards(users[..j], promo, pay).None?
    ensures Keyboards(users, promo, pay).None?
    decreases |users| - j
  {
    if j < |users| {
      assert users[..j + 1][..j] == users[..j];
      KeyboardsFailurePersists(users, promo, pay, j + 1);
    } else {
      assert users[..j] == users;
    }
  }

  lemma CountSentStep(users: seq<Value>, kbs: seq<Option<Keyboard>>, kb: Option<Keyboard>, known: bool,
                      delivered: (Value, Option<Keyboard>) -> bool, i: nat)
    requires i < |users| && |kbs| == i
    ensures CountSent(users[..i + 1], kbs + [kb], known, delivered) ==
      CountSent(users[..i], kbs, known, delivered) + (if !known || delivered(users[i], kb) then 1 else 0)
  {
    assert users[..i + 1][..i] == users[..i];
    assert (kbs + [kb])[..i] == kbs;
  }

  /** A message of a type the loop does not know is sent to nobody, yet every
      recipient is counted. */
  lemma {:induction false} UnknownTypeCountsEveryone(users: seq<Value>, kbs: seq<Option<Keyboard>>,
                                                     delivered: (Value, Option<Keyboard>) -> bool)
    requires |kbs| == |users|
    ensures CountSent(users, kbs, false, delivered) == |users|
    decreases |users|
  {
    if users != [] {
      UnknownTypeCountsEveryone(users[..|users| - 1], kbs[..|kbs| - 1], delivered);
    }
  }

  /** For a known type, the count is exactly the number of recipients whose
      send returned. */
  lemma {:induction false} CountSentDelivered(users: seq<Value>, kbs: seq<Option<Keyboard>>,
                                              delivered: (Value, Option<Keyboard>) -> bool)
    requires |kbs| == |users|
    ensures CountSent(users, kbs, true, delivered) == |set i | 0 <= i < |users| && delivered(users[i], kbs[i])|
    decreases |users|
  {
    var n := |users|;
    if n > 0 {
      var us := users[..n - 1];
      var ks := kbs[..n - 1];
      CountSentDelivered(us, ks, delivered);
      var before := set i | 0 <= i < n - 1 && delivered(us[i], ks[i]);
      var after := set i | 0 <= i < n && delivered(users[i], kbs[i]);
      if delivered(users[n - 1], kbs[n - 1]) {
        assert after == before + {n - 1};
      } else {
        assert after == before;
      }
    }
  }

  /** The two counts of `get_remarketing_targets`. */
  datatype Targets = Targets(all: Value, nonPaying: Value)

  /** `row["count"] if row else 0`; `None` where the row has no count. */
  function CountOf(row: Option<Record>): Option<Value>
  {
    if row.None? || row.value == map[] then Some(Int(0))
    else if "count" in row.value then Some(row.value["count"])
    else None
  }

  /** `get_remarketing_targets`: the two counts, or zero for both when a query
      raises (`queryFailed`) or a row lacks its count. */
  function RemarketingTargets(queryFailed: bool, allRow: Option<Record>, nonPayingRow: Option<Record>): (t: Targets)
    ensures queryFailed ==> t == Targets(Int(0), Int(0))
    ensures !queryFailed && CountOf(allRow).Some? && CountOf(nonPayingRow).Some? ==>
      t == Targets(CountOf(allRow).value, CountOf(nonPayingRow).value)
    ensures allRow.None? && nonPayingRow.None? ==> t == Targets(Int(0), Int(0))
  {
    if queryFailed then Targets(Int(0), Int(0))
    else match (CountOf(allRow), CountOf(nonPayingRow))
      case (Some(a), Some(n)) => Targets(a, n)
      case _ => Targets(Int(0), Int(0))
  }
}
