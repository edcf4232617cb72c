/**
 * The plain state classes of `ZENYX/models/plan.py`, `ZENYX/models/message.py`
 * and `ZENYX/models/payment.py`. A creation time that is not given is the
 * current time `now`; datetimes are integer timestamps and prices and
 * amounts are integers.
 */
module Entities {

  import opened Wrappers

  /** `created_at or datetime.now()`: a given datetime is always kept. */
  function CreatedAt(given: Option<int>, now: int): (t: int)
    ensures given.Some? ==> t == given.value
    ensures given.None? ==> t == now
  {
    given.GetOr(now)
  }

  /** A plan a bot owner sells. */
  class Plan {
    var name: string
    var price: int
    var durationDays: int
    var features: seq<string>
    var ownerId: string
    var createdAt: int
    var isActive: bool

    /** The arguments are stored as given. */
    constructor(name: string, price: int, durationDays: int, features: seq<string>, ownerId: string,
                createdAt: Option<int>, isActive: bool, now: int)
      ensures this.name == name && this.price == price && this.durationDays == durationDays
      ensures this.features == features && this.ownerId == ownerId && this.isActive == isActive
      ensures this.createdAt == CreatedAt(createdAt, now)
    {
      this.name := name;
      this.price := price;
      this.durationDays := durationDays;
      this.features := features;
      this.ownerId := ownerId;
      this.createdAt := CreatedAt(createdAt, now);
      this.isActive := isActive;
    }

    /** The constructor called without `is_active`: the plan is active. */
    constructor WithDefaults(name: string, price: int, durationDays: int, features: seq<string>, ownerId: string,
                             createdAt: Option<int>, now: int)
      ensures this.name == name && this.price == price && this.durationDays == durationDays
      ensures this.features == features && this.ownerId == ownerId && this.isActive
      ensures this.createdAt == CreatedAt(createdAt, now)
    {
      this.name := name;
      this.price := price;
      this.durationDays := durationDays;
      this.features := features;
      this.ownerId := ownerId;
      this.createdAt := CreatedAt(createdAt, now);
      this.isActive := true;
    }

    /** `deactivate`: inactive afterwards, whatever it was; nothing else
        changes, so a second call changes nothing. */
    method Deactivate()
      modifies this
      ensures !isActive
      ensures name == old(name) && price == old(price) && durationDays == old(durationDays)
      ensures features == old(features) && ownerId == old(ownerId) && createdAt == old(createdAt)
    {
      isActive := false;
    }

    /** `activate`: active afterwards; nothing else changes. */
    method Activate()
      modifies this
      ensures isActive
      ensures name == old(name) && price == old(price) && durationDays == old(durationDays)
      ensures features == old(features) && ownerId == old(ownerId) && createdAt == old(createdAt)
    {
      isActive := true;
    }
  }

  /** A message configured for a bot. */
  class Message {
    var userId: string
    var botId: string
    var content: string
    var messageType: string
    var createdAt: int
    var isActive: bool

    /** The arguments are stored as given. */
    constructor(userId: string, botId: string, content: string, messageType: string,
                createdAt: Option<int>, isActive: bool, now: int)
      ensures this.userId == userId && this.botId == botId && this.content == content
      ensures this.messageType == messageType && this.isActive == isActive
      ensures this.createdAt == CreatedAt(createdAt, now)
    {
      this.userId := userId;
      this.botId := botId;
      this.content := content;
      this.messageType := messageType;
      this.createdAt := CreatedAt(createdAt, now);
      this.isActive := isActive;
    }

    /** The constructor called without `message_type` and `is_active`: a
        text message, active. */
    constructor WithDefaults(userId: string, botId: string, content: string, createdAt: Option<int>, now: int)
      ensures this.userId == userId && this.botId == botId && this.content == content
      ensures this.messageType == "text" && this.isActive
      ensures this.createdAt == CreatedAt(createdAt, now)
    {
      this.userId := userId;
      this.botId := botId;
      this.content := content;
      this.messageType := "text";
      this.createdAt := CreatedAt(createdAt, now);
      this.isActive := true;
    }

    /** `deactivate`: inactive afterwards; nothing else changes. */
    method Deactivate()
      modifies this
      ensures !isActive
      ensures userId == old(userId) && botId == old(botId) && content == old(content)
      ensures messageType == old(messageType) && createdAt == old(createdAt)
    {
      isActive := false;
    }

    /** `activate`: active afterwards; nothing else changes. */
    method Activate()
      modifies this
      ensures isActive
      ensures userId == old(userId) && botId == old(botId) && content == old(content)
      ensures messageType == old(messageType) && createdAt == old(createdAt)
    {
      isActive := true;
    }
  }

  /** A payment for a plan. */
  class Payment {
    var userId: string
    var planId: string
    var amount: int
    var paymentMethod: string
    var status: string
    var transactionId: Option<string>
    var createdAt: int

    /** The arguments are stored as given. */
    constructor(userId: string, planId: string, amount: int, paymentMethod: string, status: string,
                transactionId: Option<string>, createdAt: Option<int>, now: int)
      ensures this.userId == userId && this.planId == planId && this.amount == amount
      ensures this.paymentMethod == paymentMethod && this.status == status && this.transactionId == transactionId
      ensures this.createdAt == CreatedAt(createdAt, now)
    {
      this.userId := userId;
      this.planId := planId;
      this.amount := amount;
      this.paymentMethod := paymentMethod;
      this.status := status;
      this.transactionId := transactionId;
      this.createdAt := CreatedAt(createdAt, now);
    }

    /** The constructor called without `status` and `transaction_id`: a
        pending payment with no transaction yet. */
    constructor WithDefaults(userId: string, planId: string, amount: int, paymentMethod: string,
                             createdAt: Option<int>, now: int)
      ensures this.userId == userId && this.planId == planId && this.amount == amount
      ensures this.paymentMethod == paymentMethod && this.status == "pending" && this.transactionId == None
      ensures this.createdAt == CreatedAt(createdAt, now)
    {
      this.userId := userId;
      this.planId := planId;
      this.amount := amount;
      this.paymentMethod := paymentMethod;
      this.status := "pending";
      this.transactionId := None;
      this.createdAt := CreatedAt(createdAt, now);
    }

    /** `update_status`: the status becomes exactly the one given; nothing
        else changes. */
    method UpdateStatus(newStatus: string)
      modifies this
      ensures status == newStatus
      ensures userId == old(userId) && planId == old(planId) && amount == old(amount)
      ensures paymentMethod == old(paymentMethod) && transactionId == old(transactionId) && createdAt == old(createdAt)
    {
      status := newStatus;
    }
  }
}
