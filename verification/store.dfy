/**
 * The Redis keyspace behind `database.py` and the `Database` class that reads
 * and writes it.
 *
 * Every Redis key family becomes one field of `Keyspace`:
 *   `user:{id}`                     users
 *   `bot:{id}`                      bots
 *   `user:{uid}:bots`, `all_bots`   userBots, allBots
 *   `bot_id_counter`, `bot_counter` botIdCounter, botCounter
 *   `bot:{bid}:message:{mid}`       messages[bid][mid]
 *   `bot:{bid}:messages`            messageIndex[bid]
 *   `bot:{bid}:message_counter`     messageCounter[bid]
 *   (the same three for plans)
 *   `payment:{id}`                  payments
 *   `user:{uid}:payments`, `bot:{bid}:payments`  userPayments, botPayments
 *   `bot:{bid}:{feature}_config`    features[(bid, feature)]
 * A Redis set or counter that does not exist reads as empty or 0, which is
 * what `Members` and `Counter` return for a missing entry.
 */
module Store {

  import opened Wrappers
  import opened Text
  import opened Json

  function Members(sets: map<string, set<string>>, key: string): set<string>
  {
    if key in sets then sets[key] else {}
  }

  function Counter(counters: map<string, nat>, key: string): nat
  {
    if key in counters then counters[key] else 0
  }

  function Table(tables: map<string, map<string, Record>>, key: string): map<string, Record>
  {
    if key in tables then tables[key] else map[]
  }

  /** `str(n).zfill(2)`, the id `save_user_bot` gives to the bot numbered `n`. */
  function BotId(n: nat): (id: string)
    ensures |id| >= 2 && AllDigits(id) && ParseDecimal(id) == n
  {
    PaddedDecimalRoundTrip(n, 2);
    ZFill(Decimal(n), 2)
  }

  /** The `{user_id}` segment of the owner index of a stored bot. */
  function Owner(r: Record): string
  {
    Show(Get(r, "user_id", Null))
  }

  /** `created_at` read with default 0, where the source compares it with a
      number; `None` where that comparison raises `TypeError` (a text, `None`,
      a list or a dict). */
  function CreatedAt(r: Record): Option<int>
  {
    Numeric(Get(r, "created_at", Int(0)))
  }

  predicate CreatedAfter(r: Record, since: int)
  {
    CreatedAt(r).Some? && CreatedAt(r).value > since
  }

  /** The statuses `get_stopped_user_bots` selects. */
  predicate IsStopped(r: Record)
  {
    Get(r, "status", Null) == Str("inactive") || Get(r, "status", Null) == Str("deleted")
  }

  predicate PaidWithin(r: Record, start: int, end: int)
  {
    CreatedAt(r).Some? && start <= CreatedAt(r).value <= end && Get(r, "status", Null) == Str("paid")
  }

  /** A list comprehension `[x for x in l if keep(x)]`. */
  function Filter(l: seq<Record>, keep: Record -> bool): (r: seq<Record>)
    ensures |r| <= |l|
    ensures forall x :: x in r <==> x in l && keep(x)
  {
    if l == [] then [] else (if keep(l[0]) then [l[0]] else []) + Filter(l[1..], keep)
  }

  /** The records a loop over `ids` in the given order appends, skipping missing
      and empty ones. */
  function Present(t: map<string, Record>, order: seq<string>): seq<Record>
  {
    if order == [] then []
    else
      var last := order[|order| - 1];
      Present(t, order[..|order| - 1]) + (if Found(t, last) then [t[last]] else [])
  }

  /** The non-empty records stored under the given ids. */
  function Stored(t: map<string, Record>, ids: set<string>): set<Record>
  {
    set id | id in ids && Found(t, id) :: t[id]
  }

  /** The loop shared by every getter that walks a Redis index: fetch each
      member of the index and keep the records that exist and are not empty. */
  method Collect(ids: set<string>, t: map<string, Record>) returns (recs: seq<Record>, ghost order: seq<string>)
    ensures multiset(order) == multiset(ids)
    ensures recs == Present(t, order)
    ensures |recs| <= |ids|
    ensures forall x :: x in recs <==> x in Stored(t, ids)
  {
    var remaining := ids;
    recs, order := [], [];
    while remaining != {}
      invariant remaining <= ids
      invariant multiset(order) + multiset(remaining) == multiset(ids)
      invariant recs == Present(t, order)
      invariant |recs| <= |order|
      decreases remaining
    {
      var id :| id in remaining;
      if Found(t, id) {
        recs := recs + [t[id]];
      }
      ghost var before := order;
      order := order + [id];
      assert order[..|order| - 1] == before;
      VisitStep(remaining, id);
      remaining := remaining - {id};
    }
    assert multiset(order) == multiset(ids);
    assert |multiset(order)| == |multiset(ids)|;
    forall id
      ensures id in order <==> id in ids
    {
      assert id in order <==> id in multiset(order);
    }
    PresentMembers(t, order, ids);
  }

  lemma VisitStep(remaining: set<string>, id: string)
    requires id in remaining
    ensures multiset([id]) + multiset(remaining - {id}) == multiset(remaining)
  {
  }

  /** Walking the ids in any order that visits exactly `ids` yields exactly
      the records stored under them. */
  lemma {:induction false} PresentMembers(t: map<string, Record>, order: seq<string>, ids: set<string>)
    requires forall id :: id in order <==> id in ids
    ensures forall x :: x in Present(t, order) <==> x in Stored(t, ids)
  {
    if order == [] {
      assert ids == {};
    } else {
      var init := order[..|order| - 1];
      var last := order[|order| - 1];
      var initIds := set id | id in init;
      PresentMembers(t, init, initIds);
      assert ids == initIds + {last} by {
        assert order == init + [last];
      }
      StoredStep(t, initIds, last);
    }
  }

  lemma StoredStep(t: map<string, Record>, visited: set<string>, id: string)
    ensures Stored(t, visited + {id}) == Stored(t, visited) + (if Found(t, id) then {t[id]} else {})
  {
  }

  /** What `save_user`, `save_payment` and `save_bot_feature_config` store:
      `updated_at` is refreshed and `created_at` is set only when absent. */
  function Stamp(data: Record, now: int): (r: Record)
    ensures r.Keys == data.Keys + {"created_at", "updated_at"}
    ensures r["updated_at"] == Int(now)
    ensures r["created_at"] == if "created_at" in data then data["created_at"] else Int(now)
    ensures forall f :: f in data && f != "updated_at" ==> r[f] == data[f]
  {
    var d := data["updated_at" := Int(now)];
    if "created_at" in data then d else d["created_at" := Int(now)]
  }

  // ---- Ordering of messages by numeric id ----

  /** Python's `int(s)` for a text: surrounding whitespace and one sign are
      allowed around the digits; `None` where `int` raises. */
  function IntOfText(s: string): Option<int>
  {
    var t := Strip(s);
    if IsDigitString(t) then Some(ParseDecimal(t))
    else if |t| > 1 && t[0] == '-' && IsDigitString(t[1..]) then Some(-(ParseDecimal(t[1..]) as int))
    else if |t| > 1 && t[0] == '+' && IsDigitString(t[1..]) then Some(ParseDecimal(t[1..]))
    else None
  }

  /** `int(str(n)) == n`: a printed id reads back as itself. */
  lemma IntOfTextRoundTrip(n: int)
    ensures IntOfText(ShowInt(n)) == Some(n)
  {
    var d := Decimal(if n < 0 then -n else n);
    var s := ShowInt(n);
    assert s[|s| - 1] == d[|d| - 1];
    assert !IsSpace(s[0]) && !IsSpace(s[|s| - 1]);
    assert Strip(s) == s;
    ParseDecimalOfDecimal(if n < 0 then -n else n);
    if n < 0 {
      assert s[1..] == d;
    }
  }

  /** `int(x.get("id", 0))`; `None` where Python's `int` raises. */
  function IdKey(r: Record): Option<int>
  {
    match Get(r, "id", Int(0))
    case Int(i) => Some(i)
    case Bool(b) => Some(if b then 1 else 0)
    case Str(s) => IntOfText(s)
    case _ => None
  }

  predicate Keyed(l: seq<Record>)
  {
    forall i :: 0 <= i < |l| ==> IdKey(l[i]).Some?
  }

  predicate SortedById(l: seq<Record>)
    requires Keyed(l)
  {
    forall i, j :: 0 <= i < j < |l| ==> IdKey(l[i]).value <= IdKey(l[j]).value
  }

  /** Places `x` after every element whose key is not greater than its own. */
  function InsertById(x: Record, s: seq<Record>): (r: seq<Record>)
    requires IdKey(x).Some? && Keyed(s)
    ensures Keyed(r)
    ensures multiset(r) == multiset(s) + multiset{x}
  {
    if s == [] then [x]
    else
      var last := s[|s| - 1];
      if IdKey(last).value <= IdKey(x).value then
        s + [x]
      else
        assert s == s[..|s| - 1] + [last];
        InsertById(x, s[..|s| - 1]) + [last]
  }

  predicate KeysAtMost(l: seq<Record>, k: int)
    requires Keyed(l)
  {
    forall i :: 0 <= i < |l| ==> IdKey(l[i]).value <= k
  }

  lemma {:induction false} InsertByIdBounded(x: Record, s: seq<Record>, k: int)
    requires IdKey(x).Some? && Keyed(s) && KeysAtMost(s, k) && IdKey(x).value <= k
    ensures KeysAtMost(InsertById(x, s), k)
  {
    if s != [] && IdKey(s[|s| - 1]).value > IdKey(x).value {
      InsertByIdBounded(x, s[..|s| - 1], k);
    }
  }

  lemma {:induction false} InsertByIdSorted(x: Record, s: seq<Record>)
    requires IdKey(x).Some? && Keyed(s) && SortedById(s)
    ensures SortedById(InsertById(x, s))
  {
    if s != [] {
      var last := s[|s| - 1];
      var init := s[..|s| - 1];
      if IdKey(last).value > IdKey(x).value {
        InsertByIdSorted(x, init);
        InsertByIdBounded(x, init, IdKey(last).value);
        var r' := InsertById(x, init);
        assert InsertById(x, s) == r' + [last];
        assert KeysAtMost(init, IdKey(last).value) by {
          assert forall i :: 0 <= i < |init| ==> init[i] == s[i];
        }
        SortedSnoc(r', last);
      } else {
        assert InsertById(x, s) == s + [x];
        SortedSnoc(s, x);
      }
    }
  }

  /** A sorted list stays sorted when an element with a key at least all of
      its keys is appended. */
  lemma SortedSnoc(r: seq<Record>, y: Record)
    requires Keyed(r) && IdKey(y).Some? && SortedById(r) && KeysAtMost(r, IdKey(y).value)
    ensures Keyed(r + [y]) && SortedById(r + [y])
  {
    var t := r + [y];
    forall i, j | 0 <= i < j < |t|
      ensures IdKey(t[i]).value <= IdKey(t[j]).value
    {
      assert t[i] == r[i];
      if j < |r| {
        assert t[j] == r[j];
      }
    }
  }

  /** Python's stable `list.sort(key=...)`, as an insertion sort. */
  function SortById(l: seq<Record>): (r: seq<Record>)
    requires Keyed(l)
    ensures Keyed(r) && SortedById(r)
    ensures multiset(r) == multiset(l)
  {
    if l == [] then []
    else
      var init := l[..|l| - 1];
      assert l == init + [l[|l| - 1]];
      InsertByIdSorted(l[|l| - 1], SortById(init));
      InsertById(l[|l| - 1], SortById(init))
  }

  // ---- The keyspace ----

  /** The three key families of a per-bot numbered collection
      (`bot:{bid}:message:{n}`, `bot:{bid}:messages`, `bot:{bid}:message_counter`,
      and the same for plans). */
  datatype BotCollection = BotCollection(
    records: map<string, map<string, Record>>,
    index: map<string, set<string>>,
    counter: map<string, nat>)
  {
    /** A record exists exactly when its id is in its bot's index, and every
        numeric id is at most that bot's counter. */
    ghost predicate Valid()
    {
      (forall b :: Table(records, b).Keys == Members(index, b))
      && (forall b, id :: id in Table(records, b) && AllDigits(id) ==> ParseDecimal(id) <= Counter(counter, b))
    }
  }

  datatype Keyspace = Keyspace(
    users: map<string, Record>,
    bots: map<string, Record>,
    userBots: map<string, set<string>>,
    allBots: set<string>,
    botIdCounter: nat,
    botCounter: nat,
    messages: BotCollection,
    plans: BotCollection,
    payments: map<string, Record>,
    userPayments: map<string, set<string>>,
    botPayments: map<string, set<string>>,
    features: map<(string, string), Record>)
  {
    /** `all_bots` lists exactly the stored bots, and `user:{uid}:bots` lists
        exactly the stored bots whose `user_id` renders as `uid`. */
    ghost predicate BotsIndexed()
    {
      allBots == bots.Keys
      && (forall u, id :: id in Members(userBots, u) ==> id in bots && Owner(bots[id]) == u)
      && (forall id :: id in bots ==> id in Members(userBots, Owner(bots[id])))
    }

    /** Every numeric bot id is at most `bot_id_counter`, so the next id is new. */
    ghost predicate BotIdsFresh()
    {
      forall id :: id in bots && AllDigits(id) ==> ParseDecimal(id) <= botIdCounter
    }

    ghost predicate Valid()
    {
      BotsIndexed() && BotIdsFresh() && messages.Valid() && plans.Valid()
    }
  }

  // ---- Per-bot numbered collections (messages and plans) ----

  /** The fields `save_bot_message` and `save_bot_plan` add to the caller's data. */
  function NumberedFields(id: string, bid: string, now: int): Record
  {
    map["id" := Str(id), "bot_id" := Str(bid), "created_at" := Int(now), "updated_at" := Int(now)]
  }

  /** `save_bot_message` / `save_bot_plan`: `incr` the bot's counter, store the
      record under the counter's new value in decimal and add that id to the
      bot's index. In a valid collection the id is new. */
  method CollectionSave(c: BotCollection, bid: string, data: Record, now: int) returns (c': BotCollection, id: string)
    ensures id == Decimal(Counter(c.counter, bid) + 1)
    ensures c'.counter == c.counter[bid := Counter(c.counter, bid) + 1]
    ensures c'.records == c.records[bid := Table(c.records, bid)[id := Merge(data, NumberedFields(id, bid, now))]]
    ensures c'.index == c.index[bid := Members(c.index, bid) + {id}]
    ensures c.Valid() ==> id !in Table(c.records, bid) && c'.Valid()
  {
    var n := Counter(c.counter, bid) + 1;
    id := Decimal(n);
    var rec := Merge(data, NumberedFields(id, bid, now));
    c' := c.(counter := c.counter[bid := n]);
    c' := c'.(records := c'.records[bid := Table(c'.records, bid)[id := rec]]);
    c' := c'.(index := c'.index[bid := Members(c'.index, bid) + {id}]);
    ParseDecimalOfDecimal(n);
    if c.Valid() {
      SavedKeepsValid(c, bid, id, rec);
    }
  }

  /** Storing a record under the counter's next value and indexing it keeps a
      valid collection valid; the id was not in use. */
  lemma SavedKeepsValid(c: BotCollection, bid: string, id: string, rec: Record)
    requires c.Valid() && AllDigits(id) && ParseDecimal(id) == Counter(c.counter, bid) + 1
    ensures id !in Table(c.records, bid)
    ensures c.(counter := c.counter[bid := Counter(c.counter, bid) + 1],
               records := c.records[bid := Table(c.records, bid)[id := rec]],
               index := c.index[bid := Members(c.index, bid) + {id}]).Valid()
  {
    var c' := c.(counter := c.counter[bid := Counter(c.counter, bid) + 1],
                 records := c.records[bid := Table(c.records, bid)[id := rec]],
                 index := c.index[bid := Members(c.index, bid) + {id}]);
    SavedKeepsIndex(c, c', bid, id, rec);
    SavedKeepsCounter(c, c', bid, id, rec);
  }

  lemma SavedKeepsIndex(c: BotCollection, c': BotCollection, bid: string, id: string, rec: Record)
    requires forall b :: Table(c.records, b).Keys == Members(c.index, b)
    requires c'.records == c.records[bid := Table(c.records, bid)[id := rec]]
    requires c'.index == c.index[bid := Members(c.index, bid) + {id}]
    ensures forall b :: Table(c'.records, b).Keys == Members(c'.index, b)
  {
    forall b
      ensures Table(c'.records, b).Keys == Members(c'.index, b)
    {
      if b != bid {
        assert Table(c'.records, b) == Table(c.records, b);
        assert Members(c'.index, b) == Members(c.index, b);
      }
    }
  }

  lemma SavedKeepsCounter(c: BotCollection, c': BotCollection, bid: string, id: string, rec: Record)
    requires forall b, k :: k in Table(c.records, b) && AllDigits(k) ==> ParseDecimal(k) <= Counter(c.counter, b)
    requires AllDigits(id) && ParseDecimal(id) == Counter(c.counter, bid) + 1
    requires c'.records == c.records[bid := Table(c.records, bid)[id := rec]]
    requires c'.counter == c.counter[bid := Counter(c.counter, bid) + 1]
    ensures forall b, k :: k in Table(c'.records, b) && AllDigits(k) ==> ParseDecimal(k) <= Counter(c'.counter, b)
  {
    forall b, k | k in Table(c'.records, b) && AllDigits(k)
      ensures ParseDecimal(k) <= Counter(c'.counter, b)
    {
      if b != bid {
        assert Table(c'.records, b) == Table(c.records, b);
        assert Counter(c'.counter, b) == Counter(c.counter, b);
      } else if k != id {
        assert k in Table(c.records, b);
      }
    }
  }

  /** `update_bot_message` / `update_bot_plan`: a missing or empty record gives
      `False` and no change; otherwise the updates are merged and `updated_at`
      refreshed. */
  method CollectionUpdate(c: BotCollection, bid: string, id: string, updates: Record, now: int)
    returns (c': BotCollection, ok: bool)
    ensures ok == Found(Table(c.records, bid), id)
    ensures !ok ==> c' == c
    ensures ok ==> c' == c.(records := c.records[bid := Table(c.records, bid)[id :=
      Merge(Table(c.records, bid)[id], updates)["updated_at" := Int(now)]]])
    ensures c.Valid() ==> c'.Valid()
  {
    var t := Table(c.records, bid);
    if !Found(t, id) {
      return c, false;
    }
    var rec := Merge(t[id], updates)["updated_at" := Int(now)];
    c' := c.(records := c.records[bid := t[id := rec]]);
    ok := true;
    if c.Valid() {
      forall b
        ensures Table(c'.records, b).Keys == Members(c'.index, b)
      {
        if b != bid {
          assert Table(c'.records, b) == Table(c.records, b);
        } else {
          assert Table(c'.records, b).Keys == t.Keys;
        }
      }
    }
  }

  /** `delete_bot_message` / `delete_bot_plan`: the id leaves the index and the
      record is deleted; the counter is kept. */
  method CollectionDelete(c: BotCollection, bid: string, id: string) returns (c': BotCollection)
    ensures c' == c.(index := c.index[bid := Members(c.index, bid) - {id}],
                     records := c.records[bid := Table(c.records, bid) - {id}])
    ensures c.Valid() ==> c'.Valid()
  {
    c' := c.(index := c.index[bid := Members(c.index, bid) - {id}]);
    c' := c'.(records := c'.records[bid := Table(c'.records, bid) - {id}]);
    if c.Valid() {
      forall b
        ensures Table(c'.records, b).Keys == Members(c'.index, b)
      {
        if b != bid {
          assert Table(c'.records, b) == Table(c.records, b);
          assert Members(c'.index, b) == Members(c.index, b);
        }
      }
      forall b, k | k in Table(c'.records, b) && AllDigits(k)
        ensures ParseDecimal(k) <= Counter(c'.counter, b)
      {
        assert k in Table(c.records, b);
      }
    }
  }

  /** `delete_all_bot_messages`: every indexed record is deleted one by one, then
      the index and the counter keys. The bot's counter reads 0 afterwards, so
      the next saved message of that bot gets id "1". */
  method CollectionDeleteAll(c: BotCollection, bid: string) returns (c': BotCollection)
    ensures c'.records == c.records[bid := Table(c.records, bid) - Members(c.index, bid)]
    ensures c'.index == c.index - {bid} && c'.counter == c.counter - {bid}
    ensures Members(c'.index, bid) == {} && Counter(c'.counter, bid) == 0
    ensures c.Valid() ==> Table(c'.records, bid) == map[] && c'.Valid()
  {
    var ids := Members(c.index, bid);
    var remaining := ids;
    var t := Table(c.records, bid);
    while remaining != {}
      invariant remaining <= ids
      invariant t == Table(c.records, bid) - (ids - remaining)
      decreases remaining
    {
      var id :| id in remaining;
      t := t - {id};
      remaining := remaining - {id};
    }
    assert ids - remaining == ids;
    c' := c.(records := c.records[bid := t]);
    c' := c'.(index := c'.index - {bid});
    c' := c'.(counter := c'.counter - {bid});
    if c.Valid() {
      assert t.Keys == {};
      forall b
        ensures Table(c'.records, b).Keys == Members(c'.index, b)
      {
        if b != bid {
          assert Table(c'.records, b) == Table(c.records, b);
          assert Members(c'.index, b) == Members(c.index, b);
        }
      }
      forall b, k | k in Table(c'.records, b) && AllDigits(k)
        ensures ParseDecimal(k) <= Counter(c'.counter, b)
      {
        assert b != bid;
        assert Table(c'.records, b) == Table(c.records, b);
        assert Counter(c'.counter, b) == Counter(c.counter, b);
      }
    }
  }

  /** The records of a bot's collection, in the order its index was walked. */
  method CollectionList(c: BotCollection, bid: string) returns (recs: seq<Record>, ghost order: seq<string>)
    ensures multiset(order) == multiset(Members(c.index, bid))
    ensures recs == Present(Table(c.records, bid), order)
    ensures forall x :: x in recs <==> x in Stored(Table(c.records, bid), Members(c.index, bid))
  {
    recs, order := Collect(Members(c.index, bid), Table(c.records, bid));
  }

  /** The fields `save_user_bot` sets on a new bot. */
  function NewBotFields(id: string, userId: int, now: int): Record
  {
    map["id" := Str(id), "user_id" := Int(userId), "created_at" := Int(now),
        "updated_at" := Int(now), "status" := Str("active")]
  }

  /** The value `update_user_bot_status` writes. */
  function StatusValue(isActive: bool): Value
  {
    Str(if isActive then "active" else "inactive")
  }

  /** The keyspace after `update_user_bot(id, updates)`: only an existing,
      non-empty bot changes, by merging the updates and refreshing `updated_at`. */
  function WithUpdates(k: Keyspace, id: string, updates: Record, now: int): Keyspace
  {
    if Found(k.bots, id)
    then k.(bots := k.bots[id := Merge(k.bots[id], updates)["updated_at" := Int(now)]])
    else k
  }

  /** The keyspace after `update_user_bot_status(id, isActive)`: only the
      status and `updated_at` of an existing, non-empty bot change. */
  function WithStatus(k: Keyspace, id: string, isActive: bool, now: int): Keyspace
  {
    if Found(k.bots, id)
    then k.(bots := k.bots[id := k.bots[id]["status" := StatusValue(isActive)]["updated_at" := Int(now)]])
    else k
  }

  /** The Redis-backed store. Connection handling is not modelled: every call
      reaches the keyspace `ks`. Timestamps are the parameter `now`. */
  class Database {
    var ks: Keyspace

    constructor (initial: Keyspace)
      ensures ks == initial
    {
      ks := initial;
    }

    // ---- users ----

    method GetUser(userId: int) returns (r: Option<Record>)
      ensures r.Some? <==> ShowInt(userId) in ks.users
      ensures r.Some? ==> r.value == ks.users[ShowInt(userId)]
    {
      var key := ShowInt(userId);
      r := if key in ks.users then Some(ks.users[key]) else None;
    }

    /** `fails` says that the Redis write raises; the source catches it and
        answers `False`, and nothing is written. */
    method SaveUser(userId: int, data: Record, now: int, fails: bool) returns (ok: bool)
      modifies this
      ensures ok == !fails
      ensures ks == if fails then old(ks) else old(ks).(users := old(ks.users)[ShowInt(userId) := Stamp(data, now)])
    {
      if fails {
        return false;
      }
      ks := ks.(users := ks.users[ShowInt(userId) := Stamp(data, now)]);
      ok := true;
    }

    /** A user that is missing (or stored as an empty dict) is not updated. */
    method UpdateUser(userId: int, updates: Record, now: int, fails: bool) returns (ok: bool)
      modifies this
      ensures ok == (Found(old(ks.users), ShowInt(userId)) && !fails)
      ensures !ok ==> ks == old(ks)
      ensures ok ==> ks == old(ks).(users := old(ks.users)[ShowInt(userId) :=
        Stamp(Merge(old(ks.users)[ShowInt(userId)], updates), now)])
    {
      var current := GetUser(userId);
      if current.None? || current.value == map[] {
        return false;
      }
      ok := SaveUser(userId, Merge(current.value, updates), now, fails);
    }

    method DeleteUser(userId: int, fails: bool) returns (ok: bool)
      modifies this
      ensures ok == !fails
      ensures ks == if fails then old(ks) else old(ks).(users := old(ks.users) - {ShowInt(userId)})
    {
      if fails {
        return false;
      }
      ks := ks.(users := ks.users - {ShowInt(userId)});
      ok := true;
    }

    // ---- bots ----

    /** `save_user_bot`: the next value of `bot_id_counter`, zero-padded to two
        digits, becomes the id; the record is stored with status "active" and
        the id is added to the owner's index and to `all_bots`. */
    method SaveUserBot(userId: int, data: Record, now: int) returns (id: string)
      modifies this
      ensures id == BotId(old(ks.botIdCounter) + 1)
      ensures ks == old(ks).(
        botIdCounter := old(ks.botIdCounter) + 1,
        bots := old(ks.bots)[id := Merge(data, NewBotFields(id, userId, now))],
        userBots := old(ks.userBots)[ShowInt(userId) := Members(old(ks.userBots), ShowInt(userId)) + {id}],
        allBots := old(ks.allBots) + {id})
      ensures old(ks.Valid()) ==> id !in old(ks.bots) && ks.Valid()
    {
      var k := ks;
      var n := k.botIdCounter + 1;
      id := BotId(n);
      var rec := Merge(data, NewBotFields(id, userId, now));
      var owner := ShowInt(userId);
      var k' := k.(botIdCounter := n, bots := k.bots[id := rec],
                   userBots := k.userBots[owner := Members(k.userBots, owner) + {id}],
                   allBots := k.allBots + {id});
      if k.Valid() {
        SavedBotFresh(k, k', id, rec, owner);
      }
      ks := k';
    }

    method GetUserBot(id: string) returns (r: Option<Record>)
      ensures r.Some? <==> id in ks.bots
      ensures r.Some? ==> r.value == ks.bots[id]
    {
      r := if id in ks.bots then Some(ks.bots[id]) else None;
    }

    /** The loop behind `get_user_bot_by_token` and `get_user_bot_by_username`:
        the first bot of `all_bots` whose field equals the value (a missing
        field reads as `None`), or `None` if there is none. */
    method FindBotBy(field: string, value: Value) returns (r: Option<Record>)
      ensures r.Some? ==> r.value in Stored(ks.bots, ks.allBots) && Get(r.value, field, Null) == value
      ensures r.None? ==> forall x :: x in Stored(ks.bots, ks.allBots) ==> Get(x, field, Null) != value
    {
      var remaining := ks.allBots;
      while remaining != {}
        invariant remaining <= ks.allBots
        invariant forall id :: id in ks.allBots - remaining && Found(ks.bots, id) ==> Get(ks.bots[id], field, Null) != value
        decreases remaining
      {
        var id :| id in remaining;
        var data := GetUserBot(id);
        if data.Some? && data.value != map[] && Get(data.value, field, Null) == value {
          return data;
        }
        remaining := remaining - {id};
      }
      r := None;
    }

    method GetUserBotByToken(token: Value) returns (r: Option<Record>)
      ensures r.Some? ==> r.value in Stored(ks.bots, ks.allBots) && Get(r.value, "token", Null) == token
      ensures r.None? ==> forall x :: x in Stored(ks.bots, ks.allBots) ==> Get(x, "token", Null) != token
    {
      r := FindBotBy("token", token);
    }

    method GetUserBotByUsername(username: Value) returns (r: Option<Record>)
      ensures r.Some? ==> r.value in Stored(ks.bots, ks.allBots) && Get(r.value, "username", Null) == username
      ensures r.None? ==> forall x :: x in Stored(ks.bots, ks.allBots) ==> Get(x, "username", Null) != username
    {
      r := FindBotBy("username", username);
    }

    method GetUserBots(userId: int) returns (recs: seq<Record>, ghost order: seq<string>)
      ensures multiset(order) == multiset(Members(ks.userBots, ShowInt(userId)))
      ensures recs == Present(ks.bots, order)
      ensures forall x :: x in recs <==> x in Stored(ks.bots, Members(ks.userBots, ShowInt(userId)))
    {
      recs, order := Collect(Members(ks.userBots, ShowInt(userId)), ks.bots);
    }

    method GetAllUserBots() returns (recs: seq<Record>, ghost order: seq<string>)
      ensures multiset(order) == multiset(ks.allBots)
      ensures recs == Present(ks.bots, order)
      ensures forall x :: x in recs <==> x in Stored(ks.bots, ks.allBots)
    {
      recs, order := Collect(ks.allBots, ks.bots);
    }

    /** Exactly the stored bots created strictly after `since` (a missing
        `created_at` counts as 0). The comprehension compares every bot, so it
        raises as soon as one stored bot has a `created_at` that is not a number. */
    method GetNewUserBots(since: int) returns (recs: seq<Record>, raised: bool, ghost order: seq<string>)
      ensures multiset(order) == multiset(ks.allBots)
      ensures raised <==> exists x :: x in Stored(ks.bots, ks.allBots) && CreatedAt(x).None?
      ensures raised ==> recs == []
      ensures !raised ==> recs == Filter(Present(ks.bots, order), r => CreatedAfter(r, since))
      ensures !raised ==> forall x :: x in recs <==> x in Stored(ks.bots, ks.allBots) && CreatedAfter(x, since)
    {
      var all;
      all, order := GetAllUserBots();
      raised := exists i | 0 <= i < |all| :: CreatedAt(all[i]).None?;
      recs := if raised then [] else Filter(all, r => CreatedAfter(r, since));
    }

    /** Exactly the stored bots whose status is "inactive" or "deleted". */
    method GetStoppedUserBots() returns (recs: seq<Record>, ghost order: seq<string>)
      ensures multiset(order) == multiset(ks.allBots)
      ensures recs == Filter(Present(ks.bots, order), IsStopped)
      ensures forall x :: x in recs <==> x in Stored(ks.bots, ks.allBots) && IsStopped(x)
    {
      var all;
      all, order := GetAllUserBots();
      recs := Filter(all, IsStopped);
    }

    /** A missing (or empty) bot gives `False` and no change; otherwise the
        updates are merged into the record, every other field is kept and
        `updated_at` is refreshed. */
    method UpdateUserBot(id: string, updates: Record, now: int) returns (ok: bool)
      modifies this
      ensures ok == Found(old(ks.bots), id)
      ensures ks == WithUpdates(old(ks), id, updates, now)
      ensures ok ==> forall f :: f in old(ks.bots)[id] && f !in updates && f != "updated_at" ==> ks.bots[id][f] == old(ks.bots)[id][f]
      ensures old(ks.Valid()) && "user_id" !in updates ==> ks.Valid()
    {
      ghost var k0 := ks;
      var current := GetUserBot(id);
      if current.None? || current.value == map[] {
        return false;
      }
      var rec := Merge(current.value, updates)["updated_at" := Int(now)];
      UpdatedFieldsKept(current.value, updates, now);
      ks := ks.(bots := ks.bots[id := rec]);
      ok := true;
      if k0.Valid() && "user_id" !in updates {
        UpdateBotKeepsIndex(k0, ks, id);
      }
    }

    /** `True` writes status "active", `False` writes "inactive"; nothing else
        but `updated_at` changes. */
    method UpdateUserBotStatus(id: string, isActive: bool, now: int) returns (ok: bool)
      modifies this
      ensures ok == Found(old(ks.bots), id)
      ensures ks == WithStatus(old(ks), id, isActive, now)
      ensures old(ks.Valid()) ==> ks.Valid()
    {
      ghost var k0 := ks;
      ok := UpdateUserBot(id, map["status" := StatusValue(isActive)], now);
      StatusIsUpdate(k0, id, isActive, now);
    }

    /** A missing (or empty) bot gives `False` and no change; otherwise the id
        leaves its owner's index and `all_bots`, and the record is deleted. A
        raising write (`fails`) is caught: `False`, nothing written. */
    method DeleteUserBot(id: string, fails: bool) returns (ok: bool)
      modifies this
      ensures ok == (Found(old(ks.bots), id) && !fails)
      ensures !ok ==> ks == old(ks)
      ensures ok ==> ks == old(ks).(
        bots := old(ks.bots) - {id},
        allBots := old(ks.allBots) - {id},
        userBots := old(ks.userBots)[Owner(old(ks.bots)[id]) := Members(old(ks.userBots), Owner(old(ks.bots)[id])) - {id}])
      ensures old(ks.Valid()) ==> ks.Valid()
    {
      ghost var k0 := ks;
      var current := GetUserBot(id);
      if current.None? || current.value == map[] || fails {
        return false;
      }
      var owner := Owner(current.value);
      ks := ks.(userBots := ks.userBots[owner := Members(ks.userBots, owner) - {id}]);
      ks := ks.(allBots := ks.allBots - {id});
      ks := ks.(bots := ks.bots - {id});
      ok := true;
      if k0.Valid() {
        DeleteBotKeepsIndex(k0, ks, id, owner);
      }
    }

    // ---- messages ----

    method SaveBotMessage(bid: string, data: Record, now: int) returns (id: string)
      modifies this
      ensures id == Decimal(Counter(old(ks.messages.counter), bid) + 1)
      ensures ks == old(ks).(messages := ks.messages)
      ensures ks.messages.records == old(ks.messages.records)[bid := Table(old(ks.messages.records), bid)[id := Merge(data, NumberedFields(id, bid, now))]]
      ensures ks.messages.index == old(ks.messages.index)[bid := Members(old(ks.messages.index), bid) + {id}]
      ensures ks.messages.counter == old(ks.messages.counter)[bid := Counter(old(ks.messages.counter), bid) + 1]
      ensures old(ks.Valid()) ==> id !in Table(old(ks.messages.records), bid) && ks.Valid()
    {
      var c;
      c, id := CollectionSave(ks.messages, bid, data, now);
      ks := ks.(messages := c);
    }

    method GetBotMessage(bid: string, id: string) returns (r: Option<Record>)
      ensures r.Some? <==> id in Table(ks.messages.records, bid)
      ensures r.Some? ==> r.value == Table(ks.messages.records, bid)[id]
    {
      var t := Table(ks.messages.records, bid);
      r := if id in t then Some(t[id]) else None;
    }

    /** The bot's messages sorted by numeric id; `None` where `int(id)` raises. */
    method GetBotMessages(bid: string) returns (r: Option<seq<Record>>, ghost order: seq<string>)
      ensures multiset(order) == multiset(Members(ks.messages.index, bid))
      ensures r.None? <==> !Keyed(Present(Table(ks.messages.records, bid), order))
      ensures r.Some? ==> Keyed(r.value) && SortedById(r.value)
      ensures r.Some? ==> multiset(r.value) == multiset(Present(Table(ks.messages.records, bid), order))
      ensures r.Some? ==> forall x :: x in r.value <==> x in Stored(Table(ks.messages.records, bid), Members(ks.messages.index, bid))
    {
      var recs;
      recs, order := CollectionList(ks.messages, bid);
      if !Keyed(recs) {
        return None, order;
      }
      var sorted := SortById(recs);
      assert forall x :: x in sorted <==> x in multiset(recs);
      r := Some(sorted);
    }

    method UpdateBotMessage(bid: string, id: string, updates: Record, now: int) returns (ok: bool)
      modifies this
      ensures ok == Found(Table(old(ks.messages.records), bid), id)
      ensures !ok ==> ks == old(ks)
      ensures ok ==> ks == old(ks).(messages := old(ks.messages).(records := old(ks.messages.records)[bid :=
        Table(old(ks.messages.records), bid)[id := Merge(Table(old(ks.messages.records), bid)[id], updates)["updated_at" := Int(now)]]]))
      ensures old(ks.Valid()) ==> ks.Valid()
    {
      var c;
      c, ok := CollectionUpdate(ks.messages, bid, id, updates, now);
      ks := ks.(messages := c);
    }

    method DeleteBotMessage(bid: string, id: string, fails: bool) returns (ok: bool)
      modifies this
      ensures ok == !fails
      ensures fails ==> ks == old(ks)
      ensures !fails ==> ks == old(ks).(messages := old(ks.messages).(
        index := old(ks.messages.index)[bid := Members(old(ks.messages.index), bid) - {id}],
        records := old(ks.messages.records)[bid := Table(old(ks.messages.records), bid) - {id}]))
      ensures old(ks.Valid()) ==> ks.Valid()
    {
      if fails {
        return false;
      }
      var c := CollectionDelete(ks.messages, bid, id);
      ks := ks.(messages := c);
      ok := true;
    }

    /** Deletes the bot's messages, its index and its counter: the next
        `SaveBotMessage` for this bot returns "1". */
    method DeleteAllBotMessages(bid: string, fails: bool) returns (ok: bool)
      modifies this
      ensures ok == !fails
      ensures fails ==> ks == old(ks)
      ensures ks == old(ks).(messages := ks.messages)
      ensures !fails ==> ks.messages.records == old(ks.messages.records)[bid := Table(old(ks.messages.records), bid) - Members(old(ks.messages.index), bid)]
      ensures !fails ==> ks.messages.index == old(ks.messages.index) - {bid}
      ensures !fails ==> ks.messages.counter == old(ks.messages.counter) - {bid}
      ensures !fails ==> Counter(ks.messages.counter, bid) == 0
      ensures !fails && old(ks.Valid()) ==> Table(ks.messages.records, bid) == map[]
      ensures old(ks.Valid()) ==> ks.Valid()
    {
      if fails {
        return false;
      }
      var c := CollectionDeleteAll(ks.messages, bid);
      ks := ks.(messages := c);
      ok := true;
    }

    // ---- plans ----

    method SaveBotPlan(bid: string, data: Record, now: int) returns (id: string)
      modifies this
      ensures id == Decimal(Counter(old(ks.plans.counter), bid) + 1)
      ensures ks == old(ks).(plans := ks.plans)
      ensures ks.plans.records == old(ks.plans.records)[bid := Table(old(ks.plans.records), bid)[id := Merge(data, NumberedFields(id, bid, now))]]
      ensures ks.plans.index == old(ks.plans.index)[bid := Members(old(ks.plans.index), bid) + {id}]
      ensures ks.plans.counter == old(ks.plans.counter)[bid := Counter(old(ks.plans.counter), bid) + 1]
      ensures old(ks.Valid()) ==> id !in Table(old(ks.plans.records), bid) && ks.Valid()
    {
      var c;
      c, id := CollectionSave(ks.plans, bid, data, now);
      ks := ks.(plans := c);
    }

    method GetBotPlan(bid: string, id: string) returns (r: Option<Record>)
      ensures r.Some? <==> id in Table(ks.plans.records, bid)
      ensures r.Some? ==> r.value == Table(ks.plans.records, bid)[id]
    {
      var t := Table(ks.plans.records, bid);
      r := if id in t then Some(t[id]) else None;
    }

    /** The bot's plans, in index order (not sorted). */
    method GetBotPlans(bid: string) returns (recs: seq<Record>, ghost order: seq<string>)
      ensures multiset(order) == multiset(Members(ks.plans.index, bid))
      ensures recs == Present(Table(ks.plans.records, bid), order)
      ensures forall x :: x in recs <==> x in Stored(Table(ks.plans.records, bid), Members(ks.plans.index, bid))
    {
      recs, order := CollectionList(ks.plans, bid);
    }

    method UpdateBotPlan(bid: string, id: string, updates: Record, now: int) returns (ok: bool)
      modifies this
      ensures ok == Found(Table(old(ks.plans.records), bid), id)
      ensures !ok ==> ks == old(ks)
      ensures ok ==> ks == old(ks).(plans := old(ks.plans).(records := old(ks.plans.records)[bid :=
        Table(old(ks.plans.records), bid)[id := Merge(Table(old(ks.plans.records), bid)[id], updates)["updated_at" := Int(now)]]]))
      ensures old(ks.Valid()) ==> ks.Valid()
    {
      var c;
      c, ok := CollectionUpdate(ks.plans, bid, id, updates, now);
      ks := ks.(plans := c);
    }

    method DeleteBotPlan(bid: string, id: string, fails: bool) returns (ok: bool)
      modifies this
      ensures ok == !fails
      ensures fails ==> ks == old(ks)
      ensures !fails ==> ks == old(ks).(plans := old(ks.plans).(
        index := old(ks.plans.index)[bid := Members(old(ks.plans.index), bid) - {id}],
        records := old(ks.plans.records)[bid := Table(old(ks.plans.records), bid) - {id}]))
      ensures old(ks.Valid()) ==> ks.Valid()
    {
      if fails {
        return false;
      }
      var c := CollectionDelete(ks.plans, bid, id);
      ks := ks.(plans := c);
      ok := true;
    }

    // ---- payments ----

    /** `save_payment`: the id is the record's own `id` or, failing that,
        `str(int(now))`; `created_at` is kept when present; the payment is
        indexed under its user and its bot only when those fields are truthy. */
    method SavePayment(data: Record, now: int) returns (id: Value)
      modifies this
      ensures id == Get(data, "id", Str(ShowInt(now)))
      ensures ks == old(ks).(
        payments := old(ks.payments)[Show(id) := Stamp(data, now)],
        userPayments := if Truthy(Get(data, "user_id", Null))
          then old(ks.userPayments)[Show(data["user_id"]) := Members(old(ks.userPayments), Show(data["user_id"])) + {Show(id)}]
          else old(ks.userPayments),
        botPayments := if Truthy(Get(data, "bot_id", Null))
          then old(ks.botPayments)[Show(data["bot_id"]) := Members(old(ks.botPayments), Show(data["bot_id"])) + {Show(id)}]
          else old(ks.botPayments))
    {
      id := Get(data, "id", Str(ShowInt(now)));
      var rec := Stamp(data, now);
      ks := ks.(payments := ks.payments[Show(id) := rec]);
      var userId := Get(rec, "user_id", Null);
      if Truthy(userId) {
        ks := ks.(userPayments := ks.userPayments[Show(userId) := Members(ks.userPayments, Show(userId)) + {Show(id)}]);
      }
      var botId := Get(rec, "bot_id", Null);
      if Truthy(botId) {
        ks := ks.(botPayments := ks.botPayments[Show(botId) := Members(ks.botPayments, Show(botId)) + {Show(id)}]);
      }
    }

    method GetPayment(id: string) returns (r: Option<Record>)
      ensures r.Some? <==> id in ks.payments
      ensures r.Some? ==> r.value == ks.payments[id]
    {
      r := if id in ks.payments then Some(ks.payments[id]) else None;
    }

    method UpdatePayment(id: string, updates: Record, now: int) returns (ok: bool)
      modifies this
      ensures ok == Found(old(ks.payments), id)
      ensures !ok ==> ks == old(ks)
      ensures ok ==> ks == old(ks).(payments := old(ks.payments)[id := Merge(old(ks.payments)[id], updates)["updated_at" := Int(now)]])
    {
      var current := GetPayment(id);
      if current.None? || current.value == map[] {
        return false;
      }
      ks := ks.(payments := ks.payments[id := Merge(current.value, updates)["updated_at" := Int(now)]]);
      ok := true;
    }

    method GetUserPayments(userId: int) returns (recs: seq<Record>, ghost order: seq<string>)
      ensures multiset(order) == multiset(Members(ks.userPayments, ShowInt(userId)))
      ensures recs == Present(ks.payments, order)
      ensures forall x :: x in recs <==> x in Stored(ks.payments, Members(ks.userPayments, ShowInt(userId)))
    {
      recs, order := Collect(Members(ks.userPayments, ShowInt(userId)), ks.payments);
    }

    method GetBotPayments(bid: string) returns (recs: seq<Record>, ghost order: seq<string>)
      ensures multiset(order) == multiset(Members(ks.botPayments, bid))
      ensures recs == Present(ks.payments, order)
      ensures forall x :: x in recs <==> x in Stored(ks.payments, Members(ks.botPayments, bid))
    {
      recs, order := Collect(Members(ks.botPayments, bid), ks.payments);
    }

    /** Exactly the bot's payments with status "paid" and
        `start <= created_at <= end`. The first comparison is made for every
        payment, so one `created_at` that is not a number makes the call raise. */
    method GetBotPaymentsByPeriod(bid: string, start: int, end: int) returns (recs: seq<Record>, raised: bool, ghost order: seq<string>)
      ensures multiset(order) == multiset(Members(ks.botPayments, bid))
      ensures raised <==> exists x :: x in Stored(ks.payments, Members(ks.botPayments, bid)) && CreatedAt(x).None?
      ensures raised ==> recs == []
      ensures !raised ==> recs == Filter(Present(ks.payments, order), r => PaidWithin(r, start, end))
      ensures !raised ==> forall x :: x in recs <==> x in Stored(ks.payments, Members(ks.botPayments, bid)) && PaidWithin(x, start, end)
    {
      var all;
      all, order := GetBotPayments(bid);
      raised := exists i | 0 <= i < |all| :: CreatedAt(all[i]).None?;
      recs := if raised then [] else Filter(all, r => PaidWithin(r, start, end));
    }

    // ---- feature configurations ----

    method SaveBotFeatureConfig(bid: string, feature: string, data: Record, now: int, fails: bool) returns (ok: bool)
      modifies this
      ensures ok == !fails
      ensures ks == if fails then old(ks) else old(ks).(features := old(ks.features)[(bid, feature) := Stamp(data, now)])
    {
      if fails {
        return false;
      }
      ks := ks.(features := ks.features[(bid, feature) := Stamp(data, now)]);
      ok := true;
    }

    method GetBotFeatureConfig(bid: string, feature: string) returns (r: Option<Record>)
      ensures r.Some? <==> (bid, feature) in ks.features
      ensures r.Some? ==> r.value == ks.features[(bid, feature)]
    {
      r := if (bid, feature) in ks.features then Some(ks.features[(bid, feature)]) else None;
    }

    method DeleteBotFeatureConfig(bid: string, feature: string, fails: bool) returns (ok: bool)
      modifies this
      ensures ok == !fails
      ensures ks == if fails then old(ks) else old(ks).(features := old(ks.features) - {(bid, feature)})
    {
      if fails {
        return false;
      }
      ks := ks.(features := ks.features - {(bid, feature)});
      ok := true;
    }
  }

  // ---- invariant preservation ----

  /** Writing the status is the update that names only `status`. */
  lemma StatusIsUpdate(k: Keyspace, id: string, isActive: bool, now: int)
    ensures WithUpdates(k, id, map["status" := StatusValue(isActive)], now) == WithStatus(k, id, isActive, now)
  {
    if Found(k.bots, id) {
      assert Merge(k.bots[id], map["status" := StatusValue(isActive)]) == k.bots[id]["status" := StatusValue(isActive)];
    }
  }

  /** A bot stored under the counter's next value gets an unused id and keeps
      the keyspace valid. */
  lemma SavedBotFresh(k0: Keyspace, k1: Keyspace, id: string, rec: Record, owner: string)
    requires k0.Valid() && AllDigits(id) && ParseDecimal(id) == k0.botIdCounter + 1 && Owner(rec) == owner
    requires k1 == k0.(botIdCounter := k0.botIdCounter + 1, bots := k0.bots[id := rec],
                       userBots := k0.userBots[owner := Members(k0.userBots, owner) + {id}],
                       allBots := k0.allBots + {id})
    ensures id !in k0.bots && k1.Valid()
  {
    assert id !in k0.bots;
    SaveBotKeepsIndex(k0, k1, id, owner);
  }

  lemma SaveBotKeepsIndex(k0: Keyspace, k1: Keyspace, id: string, owner: string)
    requires k0.Valid() && id !in k0.bots
    requires k1 == k0.(botIdCounter := k1.botIdCounter, bots := k1.bots, userBots := k1.userBots, allBots := k1.allBots)
    requires k1.botIdCounter == k0.botIdCounter + 1 && AllDigits(id) && ParseDecimal(id) == k1.botIdCounter
    requires id in k1.bots && k1.bots == k0.bots[id := k1.bots[id]] && Owner(k1.bots[id]) == owner
    requires k1.userBots == k0.userBots[owner := Members(k0.userBots, owner) + {id}]
    requires k1.allBots == k0.allBots + {id}
    ensures k1.Valid()
  {
    forall u, i | i in Members(k1.userBots, u)
      ensures i in k1.bots && Owner(k1.bots[i]) == u
    {
      if u != owner {
        assert Members(k1.userBots, u) == Members(k0.userBots, u);
      }
    }
    forall i | i in k1.bots
      ensures i in Members(k1.userBots, Owner(k1.bots[i]))
    {
      if i != id {
        assert i in Members(k0.userBots, Owner(k0.bots[i]));
        if Owner(k0.bots[i]) != owner {
          assert Members(k1.userBots, Owner(k0.bots[i])) == Members(k0.userBots, Owner(k0.bots[i]));
        }
      }
    }
  }

  /** An update keeps every field it does not name, except `updated_at`, and
      keeps the owner when it does not name `user_id`. */
  lemma UpdatedFieldsKept(r: Record, updates: Record, now: int)
    ensures forall f :: f in r && f !in updates && f != "updated_at" ==> Merge(r, updates)["updated_at" := Int(now)][f] == r[f]
    ensures "user_id" !in updates ==> Owner(Merge(r, updates)["updated_at" := Int(now)]) == Owner(r)
  {
  }

  lemma UpdateBotKeepsIndex(k0: Keyspace, k1: Keyspace, id: string)
    requires k0.Valid() && id in k0.bots
    requires k1 == k0.(bots := k1.bots)
    requires id in k1.bots && k1.bots == k0.bots[id := k1.bots[id]] && Owner(k1.bots[id]) == Owner(k0.bots[id])
    ensures k1.Valid()
  {
    assert k1.bots.Keys == k0.bots.Keys;
    forall u, i | i in Members(k1.userBots, u)
      ensures i in k1.bots && Owner(k1.bots[i]) == u
    {
    }
  }

  lemma DeleteBotKeepsIndex(k0: Keyspace, k1: Keyspace, id: string, owner: string)
    requires k0.Valid() && id in k0.bots && owner == Owner(k0.bots[id])
    requires k1 == k0.(bots := k0.bots - {id}, allBots := k0.allBots - {id},
                       userBots := k0.userBots[owner := Members(k0.userBots, owner) - {id}])
    ensures k1.Valid()
  {
    forall u, i | i in Members(k1.userBots, u)
      ensures i in k1.bots && Owner(k1.bots[i]) == u
    {
      if u != owner {
        assert Members(k1.userBots, u) == Members(k0.userBots, u);
        assert i != id;
      }
    }
    forall i | i in k1.bots
      ensures i in Members(k1.userBots, Owner(k1.bots[i]))
    {
      assert i in Members(k0.userBots, Owner(k0.bots[i]));
      if Owner(k0.bots[i]) != owner {
        assert Members(k1.userBots, Owner(k0.bots[i])) == Members(k0.userBots, Owner(k0.bots[i]));
      }
    }
  }
}
