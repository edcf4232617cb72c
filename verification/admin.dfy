/**
 * The administrator panel of the manager bot
 * (`ZENYX/handlers/admin_handlers.py`): the admin gate, the statistics, the
 * broadcast counters and the paginated bot listing. Sending a message is an
 * oracle `delivered(user)` telling whether `send_message` succeeded.
 */
module AdminHandlers {

  import opened Wrappers
  import opened Text
  import opened Json
  import CoreUtils
  import UserBotHandlers

  /** `admin_command`: the admin menu's callbacks for an admin, and a refusal
      (`None`) for anyone else. */
  function AdminMenu(userId: int, adminIds: set<int>): (menu: Option<seq<string>>)
    ensures menu.None? <==> userId !in adminIds
  {
    if userId !in adminIds then None else Some(["admin_stats", "admin_broadcast", "admin_manage_bots"])
  }

  /** `[bot for bot in all_bots if bot.get("status") == "active"]`, counted. */
  function CountActive(bots: seq<Record>): (n: nat)
    ensures n <= |bots|
  {
    if bots == [] then 0
    else CountActive(bots[..|bots| - 1]) + (if CoreUtils.ShownActive(bots[|bots| - 1]) then 1 else 0)
  }

  /** The distinct `user_id` values of the bots (a missing one is `None`). */
  function Owners(bots: seq<Record>): set<Value>
  {
    set i | 0 <= i < |bots| :: Get(bots[i], "user_id", Null)
  }

  /** At least one owner per non-empty list, never more owners than bots. */
  lemma {:induction false} OwnersBounded(bots: seq<Record>)
    ensures |Owners(bots)| <= |bots|
    ensures bots != [] ==> |Owners(bots)| >= 1
  {
    if bots != [] {
      var init := bots[..|bots| - 1];
      OwnersBounded(init);
      assert Owners(bots) == Owners(init) + {Get(bots[|bots| - 1], "user_id", Null)} by {
        forall v ensures v in Owners(bots) <==> v in Owners(init) + {Get(bots[|bots| - 1], "user_id", Null)} {
          if v in Owners(bots) {
            var i :| 0 <= i < |bots| && Get(bots[i], "user_id", Null) == v;
            if i < |bots| - 1 { assert Get(init[i], "user_id", Null) == v; }
          }
          if v in Owners(init) {
            var i :| 0 <= i < |init| && Get(init[i], "user_id", Null) == v;
            assert Get(bots[i], "user_id", Null) == v;
          }
        }
      }
    }
  }

  /** The loop filling `unique_users`. */
  method UniqueUsers(bots: seq<Record>) returns (users: set<Value>)
    ensures users == Owners(bots)
  {
    users := {};
    for i := 0 to |bots|
      invariant users == Owners(bots[..i])
    {
      assert bots[..i + 1][..i] == bots[..i];
      users := users + {Get(bots[i], "user_id", Null)};
      assert Owners(bots[..i + 1]) == Owners(bots[..i]) + {Get(bots[i], "user_id", Null)} by {
        var l := bots[..i + 1];
        forall v ensures v in Owners(l) <==> v in Owners(bots[..i]) + {Get(bots[i], "user_id", Null)} {
          if v in Owners(l) {
            var j :| 0 <= j < |l| && Get(l[j], "user_id", Null) == v;
            if j < i { assert Get(bots[..i][j], "user_id", Null) == v; }
          }
          if v in Owners(bots[..i]) {
            var j :| 0 <= j < i && Get(bots[..i][j], "user_id", Null) == v;
            assert Get(l[j], "user_id", Null) == v;
          }
        }
      }
    }
    assert bots[..|bots|] == bots;
  }

  datatype Stats = Stats(users: nat, total: nat, active: nat, inactive: int)

  /** `admin_stats_callback`: active bots are those whose status is "active",
      the rest are inactive, and users are the distinct owners. */
  method AdminStats(bots: seq<Record>) returns (s: Stats)
    ensures s.total == |bots| && s.active == CountActive(bots)
    ensures s.inactive == s.total - s.active && s.inactive >= 0
    ensures s.users == |Owners(bots)| && s.users <= s.total
    ensures s.total > 0 ==> s.users > 0
  {
    var users := UniqueUsers(bots);
    OwnersBounded(bots);
    var active := CountActive(bots);
    s := Stats(|users|, |bots|, active, |bots| - active);
  }

  /** The recipients among `users` whose send succeeds. */
  function Delivered(users: set<Value>, delivered: Value -> bool): set<Value>
  {
    set u | u in users && delivered(u)
  }

  /** `admin_broadcast_confirm_callback`: every distinct owner is sent the
      message once; a failure is counted and the loop goes on. */
  method Broadcast(bots: seq<Record>, delivered: Value -> bool) returns (success: nat, fail: nat)
    ensures success + fail == |Owners(bots)|
    ensures success == |Delivered(Owners(bots), delivered)|
  {
    var users := UniqueUsers(bots);
    success, fail := SendToEach(users, delivered);
  }

  /** The sending loop: each recipient is tried once, and every attempt is
      counted as a success or a failure. */
  method SendToEach(users: set<Value>, delivered: Value -> bool) returns (success: nat, fail: nat)
    ensures success + fail == |users|
    ensures success == |Delivered(users, delivered)|
  {
    var remaining := users;
    ghost var done: set<Value> := {};
    success, fail := 0, 0;
    while remaining != {}
      invariant done + remaining == users && done !! remaining
      invariant success == |Delivered(done, delivered)|
      invariant success + fail == |done|
      decreases remaining
    {
      var u :| u in remaining;
      DeliveredStep(done, u, delivered);
      if delivered(u) {
        success := success + 1;
      } else {
        fail := fail + 1;
      }
      done := done + {u};
      remaining := remaining - {u};
    }
  }

  lemma DeliveredStep(done: set<Value>, u: Value, delivered: Value -> bool)
    requires u !in done
    ensures |done + {u}| == |done| + 1
    ensures |Delivered(done + {u}, delivered)| == |Delivered(done, delivered)| + (if delivered(u) then 1 else 0)
  {
    if delivered(u) {
      assert Delivered(done + {u}, delivered) == Delivered(done, delivered) + {u};
    } else {
      assert Delivered(done + {u}, delivered) == Delivered(done, delivered);
    }
  }

  const PageSize: nat := 5

  /** `(n + items_per_page - 1) // items_per_page`. */
  function TotalPages(n: nat): nat
  {
    (n + PageSize - 1) / PageSize
  }

  /** The page count is the least number of five-bot pages holding every bot. */
  lemma TotalPagesSpec(n: nat)
    ensures TotalPages(n) * PageSize >= n
    ensures TotalPages(n) > 0 ==> (TotalPages(n) - 1) * PageSize < n
    ensures TotalPages(n) == 0 <==> n == 0
  {
  }

  /** Python's `l[start:end]`: negative bounds count from the end, and both
      bounds are clamped to the list. */
  function Clamp(i: int, n: nat): (c: nat)
    ensures c <= n
  {
    if i < 0 then (if i + n < 0 then 0 else i + n) else if i > n then n else i
  }

  function Slice(l: seq<Record>, start: int, end: int): (r: seq<Record>)
    ensures |r| <= |l|
  {
    var a := Clamp(start, |l|);
    var b := Clamp(end, |l|);
    if a < b then l[a..b] else []
  }

  datatype PageView = PageView(page: int, totalPages: nat, buttons: seq<UserBotHandlers.Button>, navigation: seq<string>)

  /** The button listing one bot. */
  function BotButton(bot: Record): UserBotHandlers.Button
  {
    var id := Show(Get(bot, "id", Str("")));
    UserBotHandlers.Button(
      (if CoreUtils.ShownActive(bot) then "🟢" else "🔴") + " @" + Show(Get(bot, "username", Str(""))) + " (ID: " + id + ")",
      "admin_bot:" + id)
  }

  /** The listing of page `page`: one button per bot of the slice, "previous"
      when `page > 1` and "next" when `page < total_pages`. */
  function ManageBotsView(bots: seq<Record>, page: int): PageView
  {
    var pageBots := Slice(bots, (page - 1) * PageSize, (page - 1) * PageSize + PageSize);
    var total := TotalPages(|bots|);
    PageView(page, total,
             seq(|pageBots|, i requires 0 <= i < |pageBots| => BotButton(pageBots[i])),
             (if page > 1 then ["admin_bots_page:" + ShowInt(page - 1)] else []) +
             (if page < total then ["admin_bots_page:" + ShowInt(page + 1)] else []))
  }

  /** `admin_manage_bots_callback` as written: always page 1. */
  function ManageBotsCallback(bots: seq<Record>): PageView
  {
    ManageBotsView(bots, 1)
  }

  /** The first page holds the first `min(5, n)` bots, offers no "previous",
      and offers "next" exactly when there are more than five bots. */
  lemma FirstPageSpec(bots: seq<Record>)
    ensures var v := ManageBotsCallback(bots);
      var k := if |bots| < PageSize then |bots| else PageSize;
      |v.buttons| == k &&
      (forall i :: 0 <= i < k ==> v.buttons[i] == BotButton(bots[i])) &&
      (v.navigation == [] <==> |bots| <= PageSize)
  {
    var v := ManageBotsCallback(bots);
    if |bots| > PageSize {
      assert TotalPages(|bots|) >= 2;
      assert v.navigation == ["admin_bots_page:" + ShowInt(2)];
    }
  }

  /** On any page, "next" is offered exactly when a later page exists and
      "previous" exactly when the page is not the first. */
  lemma NavigationSpec(bots: seq<Record>, page: int)
    ensures var nav := ManageBotsView(bots, page).navigation;
      ("admin_bots_page:" + ShowInt(page + 1) in nav <==> page < TotalPages(|bots|)) &&
      ("admin_bots_page:" + ShowInt(page - 1) in nav <==> page > 1)
  {
    var prev := "admin_bots_page:" + ShowInt(page - 1);
    var next := "admin_bots_page:" + ShowInt(page + 1);
    ShowIntInjective(page - 1, page + 1);
    assert prev[16..] == ShowInt(page - 1);
    assert next[16..] == ShowInt(page + 1);
  }

  /** `admin_bot_page_callback` as written: the page number is parsed and
      then dropped, and page 1 is shown again. */
  function BotPageCallbackAsWritten(bots: seq<Record>, page: int): PageView
  {
    ManageBotsCallback(bots)
  }

  /** With six bots, following "next" from page 1 shows page 1 again, so the
      sixth bot is never listed. */
  lemma NextPageShowsFirstPageAgain(bots: seq<Record>)
    requires |bots| == 6
    ensures ManageBotsCallback(bots).navigation == ["admin_bots_page:2"]
    ensures BotPageCallbackAsWritten(bots, 2) == ManageBotsCallback(bots)
    ensures |BotPageCallbackAsWritten(bots, 2).buttons| == 5
    ensures forall i :: 0 <= i < 5 ==> BotPageCallbackAsWritten(bots, 2).buttons[i] == BotButton(bots[i])
  {
    FirstPageSpec(bots);
    assert DigitChar(2) == '2';
    assert ShowInt(2) == "2";
    assert TotalPages(|bots|) == 2;
    assert ManageBotsCallback(bots).navigation == [] + ["admin_bots_page:" + ShowInt(2)];
    assert "admin_bots_page:" + "2" == "admin_bots_page:2";
  }

  /** `admin_bot_page_callback` rendering the page it was asked for. */
  function BotPageCallback(bots: seq<Record>, page: int): PageView
  {
    ManageBotsView(bots, page)
  }

  /** Every bot is listed on page `i / 5 + 1`, a page that exists and that the
      "next" buttons reach from page 1. */
  lemma EveryBotListed(bots: seq<Record>, i: nat)
    requires i < |bots|
    ensures var p := i / PageSize + 1;
      1 <= p <= TotalPages(|bots|) &&
      var v := BotPageCallback(bots, p);
      (i % PageSize) < |v.buttons| && v.buttons[i % PageSize] == BotButton(bots[i])
    ensures forall p :: 1 <= p < TotalPages(|bots|) ==>
      "admin_bots_page:" + ShowInt(p + 1) in BotPageCallback(bots, p).navigation
  {
    var p := i / PageSize + 1;
    var start := (p - 1) * PageSize;
    assert start == i - i % PageSize;
    var end := start + PageSize;
    var pageBots := Slice(bots, start, end);
    assert pageBots == bots[start..if end > |bots| then |bots| else end];
    assert pageBots[i % PageSize] == bots[i];
  }

  /** The pause/resume callback on a bot's detail view. */
  function DetailStatusAction(botData: Record, botId: string): string
  {
    if CoreUtils.ShownActive(botData) then "admin_bot_pause:" + botId else "admin_bot_resume:" + botId
  }

  /** The detail view offers pausing exactly when the bot is active. */
  lemma DetailStatusActionSpec(botData: Record, botId: string)
    ensures CoreUtils.ShownActive(botData) <==> DetailStatusAction(botData, botId) == "admin_bot_pause:" + botId
    ensures !CoreUtils.ShownActive(botData) <==> DetailStatusAction(botData, botId) == "admin_bot_resume:" + botId
  {
    var pause := "admin_bot_pause:" + botId;
    var resume := "admin_bot_resume:" + botId;
    assert pause[10] != resume[10];
  }
}
