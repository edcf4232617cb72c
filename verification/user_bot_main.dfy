/**
 * The supervisor of user bots (`ZENYX/user_bot_main.py`): the module-level
 * `active_bots` map from token to running bot, starting and stopping one bot,
 * one pass of the monitoring loop, and the start-up loop.
 *
 * Telegram is not modelled: `reachable(token)` says whether `await bot.me`
 * answers for that token and `closes(token)` whether `bot.close()` returns
 * normally. Time is the parameter `now`.
 */
module UserBotMain {

  import opened Wrappers
  import opened Json
  import opened Store

  /** An entry of `active_bots`. The aiogram bot, its dispatcher and its
      polling task are opaque; the entry keeps the data it was started with. */
  datatype Worker = Worker(botData: Record)

  /** How `start_user_bot` ends: it returns `True`, returns `False`, or lets an
      exception escape. */
  datatype StartOutcome = Started | Failed | Raised

  /** Every bot of the list has a numeric `created_at` field. */
  predicate AllStamped(l: seq<Record>)
  {
    forall i :: 0 <= i < |l| ==> "created_at" in l[i] && Numeric(l[i]["created_at"]).Some?
  }

  /** `max(bot['created_at'] for bot in l)`. */
  function MaxCreatedAt(l: seq<Record>): (m: int)
    requires |l| > 0 && AllStamped(l)
    ensures forall i :: 0 <= i < |l| ==> Numeric(l[i]["created_at"]).value <= m
    ensures exists i :: 0 <= i < |l| && Numeric(l[i]["created_at"]).value == m
  {
    var first := Numeric(l[0]["created_at"]).value;
    if |l| == 1 then first
    else
      var rest := MaxCreatedAt(l[1..]);
      assert forall i :: 1 <= i < |l| ==> l[i] == l[1..][i - 1];
      if first >= rest then first else rest
  }

  /** With a non-negative `last_check`, every bot `get_new_user_bots` selects
      carries its own `created_at`: the default 0 is never newer. */
  lemma {:induction false} NewBotsAreStamped(l: seq<Record>, since: int)
    requires since >= 0
    requires forall i :: 0 <= i < |l| ==> CreatedAfter(l[i], since)
    ensures AllStamped(l)
  {
    forall i | 0 <= i < |l|
      ensures "created_at" in l[i] && Numeric(l[i]["created_at"]).Some?
    {
      assert CreatedAfter(l[i], since);
    }
  }

  /** The filter `run_user_bots` applies before starting a loaded bot, as
      written: a truthy `status` field, which holds for any non-empty status. */
  predicate StartsAsWritten(r: Record)
  {
    Truthy(Get(r, "status", Bool(false)))
  }

  /** A paused bot (status "inactive") passes the start-up filter as written,
      although the monitoring loop would stop it. */
  lemma PausedBotRestartedAsWritten()
    ensures var r := map["id" := Str("01"), "token" := Str("123:abc"), "status" := Str("inactive")];
      StartsAsWritten(r) && IsStopped(r)
  {
  }

  /** The start-up filter as intended: only bots whose status is "active". */
  predicate ShouldStart(r: Record)
  {
    Get(r, "status", Null) == Str("active")
  }

  lemma ShouldStartExcludesStopped(r: Record)
    ensures ShouldStart(r) ==> !IsStopped(r) && StartsAsWritten(r)
  {
  }

  // ---- the loops as functions of the state ----

  /** What the supervisor's loops change: `active_bots` and the keyspace. */
  datatype FleetState = FleetState(active: map<Value, Worker>, ks: Keyspace)

  /** Where a loop over bot records ends: the state it leaves and whether an
      exception escaped it. */
  datatype LoopEnd = LoopEnd(state: FleetState, raised: bool)

  /** `start_user_bot(token, data)`: a reachable bot is registered; the status
      update that follows raises when the record has no `id`. */
  function Launch(s: FleetState, token: Value, data: Record, now: int, reachable: bool): LoopEnd
  {
    var active := if reachable then s.active[token := Worker(data)] else s.active;
    if "id" in data then LoopEnd(FleetState(active, WithStatus(s.ks, Show(data["id"]), reachable, now)), false)
    else LoopEnd(FleetState(active, s.ks), true)
  }

  /** The first loop of `monitor_new_bots` over the bots still to visit: a
      registered token is skipped, any other is logged by its `id` and started.
      A record without `token`, or an unregistered one without `id`, raises. */
  function StartNew(s: FleetState, bots: seq<Record>, now: int, reachable: Value -> bool): LoopEnd
    decreases |bots|
  {
    if bots == [] then LoopEnd(s, false)
    else if "token" !in bots[0] then LoopEnd(s, true)
    else if bots[0]["token"] in s.active then StartNew(s, bots[1..], now, reachable)
    else if "id" !in bots[0] then LoopEnd(s, true)
    else StartNew(Launch(s, bots[0]["token"], bots[0], now, reachable(bots[0]["token"])).state, bots[1..], now, reachable)
  }

  /** The loop of `run_user_bots` over the loaded bots still to visit: each bot
      the filter `keep` admits is started, registered or not. */
  function StartLoaded(s: FleetState, bots: seq<Record>, keep: Record -> bool, now: int, reachable: Value -> bool): LoopEnd
    decreases |bots|
  {
    if bots == [] then LoopEnd(s, false)
    else if !keep(bots[0]) then StartLoaded(s, bots[1..], keep, now, reachable)
    else if "token" !in bots[0] then LoopEnd(s, true)
    else
      var e := Launch(s, bots[0]["token"], bots[0], now, reachable(bots[0]["token"]));
      if e.raised then e else StartLoaded(e.state, bots[1..], keep, now, reachable)
  }

  /** The second loop of `monitor_new_bots` over the stopped bots still to
      visit: a registered token is logged by its `id` and stopped, and leaves
      `active_bots` when its session closes. */
  function StopListed(s: FleetState, bots: seq<Record>, closes: Value -> bool): LoopEnd
    decreases |bots|
  {
    if bots == [] then LoopEnd(s, false)
    else if "token" !in bots[0] then LoopEnd(s, true)
    else if bots[0]["token"] !in s.active then StopListed(s, bots[1..], closes)
    else if "id" !in bots[0] then LoopEnd(s, true)
    else
      var t := bots[0]["token"];
      StopListed(s.(active := if closes(t) then s.active - {t} else s.active), bots[1..], closes)
  }

  /** The keyspace differs from `k` at most in the records of stored bots, and
      stays valid when `k` was. */
  ghost predicate BotsRewritten(k: Keyspace, k': Keyspace)
  {
    k' == k.(bots := k'.bots) && k'.bots.Keys == k.bots.Keys && (k.Valid() ==> k'.Valid())
  }

  lemma WithStatusRewrites(k: Keyspace, id: string, isActive: bool, now: int)
    ensures BotsRewritten(k, WithStatus(k, id, isActive, now))
  {
    var k' := WithStatus(k, id, isActive, now);
    if Found(k.bots, id) && k.Valid() {
      assert Get(k'.bots[id], "user_id", Null) == Get(k.bots[id], "user_id", Null);
      UpdateBotKeepsIndex(k, k', id);
    }
  }

  lemma LaunchRewrites(s: FleetState, token: Value, data: Record, now: int, reachable: bool)
    ensures BotsRewritten(s.ks, Launch(s, token, data, now, reachable).state.ks)
  {
  }

  /** The monitoring loop never drops or replaces a registered bot, and
      rewrites only bot records. */
  lemma {:induction false} StartNewKeeps(s: FleetState, bots: seq<Record>, now: int, reachable: Value -> bool)
    ensures var e := StartNew(s, bots, now, reachable);
      (forall t :: t in s.active ==> t in e.state.active && e.state.active[t] == s.active[t])
      && BotsRewritten(s.ks, e.state.ks)
    decreases |bots|
  {
    if bots != [] && "token" in bots[0] {
      var t := bots[0]["token"];
      if t in s.active {
        StartNewKeeps(s, bots[1..], now, reachable);
      } else if "id" in bots[0] {
        var s' := Launch(s, t, bots[0], now, reachable(t)).state;
        LaunchRewrites(s, t, bots[0], now, reachable(t));
        StartNewKeeps(s', bots[1..], now, reachable);
      }
    }
  }

  /** Every bot the monitoring loop registers answered, and runs with the data
      of a listed bot carrying its token. */
  lemma {:induction false} StartNewSound(s: FleetState, bots: seq<Record>, now: int, reachable: Value -> bool)
    ensures var e := StartNew(s, bots, now, reachable);
      forall t :: t in e.state.active && t !in s.active ==> (reachable(t) &&
        exists i :: 0 <= i < |bots| && "token" in bots[i] && bots[i]["token"] == t && e.state.active[t] == Worker(bots[i]))
    decreases |bots|
  {
    if bots != [] && "token" in bots[0] {
      var t0 := bots[0]["token"];
      var e := StartNew(s, bots, now, reachable);
      if t0 in s.active {
        StartNewSound(s, bots[1..], now, reachable);
        forall t | t in e.state.active && t !in s.active
          ensures reachable(t) && exists i :: 0 <= i < |bots| && "token" in bots[i] && bots[i]["token"] == t && e.state.active[t] == Worker(bots[i])
        {
          var i :| 0 <= i < |bots[1..]| && "token" in bots[1..][i] && bots[1..][i]["token"] == t && e.state.active[t] == Worker(bots[1..][i]);
          assert bots[i + 1] == bots[1..][i];
        }
      } else if "id" in bots[0] {
        var s' := Launch(s, t0, bots[0], now, reachable(t0)).state;
        StartNewSound(s', bots[1..], now, reachable);
        StartNewKeeps(s', bots[1..], now, reachable);
        forall t | t in e.state.active && t !in s.active
          ensures reachable(t) && exists i :: 0 <= i < |bots| && "token" in bots[i] && bots[i]["token"] == t && e.state.active[t] == Worker(bots[i])
        {
          if t in s'.active {
            assert t == t0 && e.state.active[t] == Worker(bots[0]);
          } else {
            var i :| 0 <= i < |bots[1..]| && "token" in bots[1..][i] && bots[1..][i]["token"] == t && e.state.active[t] == Worker(bots[1..][i]);
            assert bots[i + 1] == bots[1..][i];
          }
        }
      }
    }
  }

  /** When the monitoring loop finishes, every listed bot had a token, and a
      listed token is registered exactly when it already was or it answered. */
  lemma {:induction false} StartNewComplete(s: FleetState, bots: seq<Record>, now: int, reachable: Value -> bool)
    ensures var e := StartNew(s, bots, now, reachable);
      !e.raised ==> forall i :: 0 <= i < |bots| ==> ("token" in bots[i] &&
        (bots[i]["token"] in e.state.active <==> bots[i]["token"] in s.active || reachable(bots[i]["token"])))
    decreases |bots|
  {
    var e := StartNew(s, bots, now, reachable);
    if bots != [] && !e.raised {
      var t0 := bots[0]["token"];
      var s' := if t0 in s.active then s else Launch(s, t0, bots[0], now, reachable(t0)).state;
      assert e == StartNew(s', bots[1..], now, reachable);
      StartNewComplete(s', bots[1..], now, reachable);
      StartNewKeeps(s', bots[1..], now, reachable);
      StartNewSound(s', bots[1..], now, reachable);
      forall i | 0 <= i < |bots|
        ensures "token" in bots[i] &&
          (bots[i]["token"] in e.state.active <==> bots[i]["token"] in s.active || reachable(bots[i]["token"]))
      {
        if i > 0 {
          assert bots[i] == bots[1..][i - 1];
        }
      }
    }
  }

  /** The start-up loop keeps every registered token and rewrites only bot
      records; a token it changes answered and now runs a bot the filter
      admitted. */
  lemma {:induction false} StartLoadedSound(s: FleetState, bots: seq<Record>, keep: Record -> bool, now: int, reachable: Value -> bool)
    ensures var e := StartLoaded(s, bots, keep, now, reachable);
      (forall t :: t in s.active ==> t in e.state.active)
      && BotsRewritten(s.ks, e.state.ks)
      && forall t :: t in e.state.active && !(t in s.active && e.state.active[t] == s.active[t]) ==> (reachable(t) &&
        exists i :: 0 <= i < |bots| && keep(bots[i]) && "token" in bots[i] && bots[i]["token"] == t && e.state.active[t] == Worker(bots[i]))
    decreases |bots|
  {
    if bots == [] || (keep(bots[0]) && "token" !in bots[0]) {
      return;
    }
    var e := StartLoaded(s, bots, keep, now, reachable);
    var s' := s;
    if keep(bots[0]) {
      var t0 := bots[0]["token"];
      var l := Launch(s, t0, bots[0], now, reachable(t0));
      LaunchRewrites(s, t0, bots[0], now, reachable(t0));
      if l.raised {
        assert e == l;
        return;
      }
      s' := l.state;
    }
    assert e == StartLoaded(s', bots[1..], keep, now, reachable);
    StartLoadedSound(s', bots[1..], keep, now, reachable);
    forall t | t in e.state.active && !(t in s.active && e.state.active[t] == s.active[t])
      ensures reachable(t) &&
        exists i :: 0 <= i < |bots| && keep(bots[i]) && "token" in bots[i] && bots[i]["token"] == t && e.state.active[t] == Worker(bots[i])
    {
      if t in s'.active && e.state.active[t] == s'.active[t] {
        assert keep(bots[0]) && t == bots[0]["token"] && e.state.active[t] == Worker(bots[0]);
      } else {
        var i :| 0 <= i < |bots[1..]| && keep(bots[1..][i]) && "token" in bots[1..][i] && bots[1..][i]["token"] == t
          && e.state.active[t] == Worker(bots[1..][i]);
        assert bots[i + 1] == bots[1..][i];
      }
    }
  }

  /** When the start-up loop finishes, every admitted bot had a token and an
      `id`, and every admitted bot that answered is registered. */
  lemma {:induction false} StartLoadedComplete(s: FleetState, bots: seq<Record>, keep: Record -> bool, now: int, reachable: Value -> bool)
    ensures var e := StartLoaded(s, bots, keep, now, reachable);
      !e.raised ==> forall i :: 0 <= i < |bots| && keep(bots[i]) ==> ("token" in bots[i] && "id" in bots[i] &&
        (reachable(bots[i]["token"]) ==> bots[i]["token"] in e.state.active))
    decreases |bots|
  {
    var e := StartLoaded(s, bots, keep, now, reachable);
    if bots != [] && !e.raised {
      var s' := if keep(bots[0]) then Launch(s, bots[0]["token"], bots[0], now, reachable(bots[0]["token"])).state else s;
      assert e == StartLoaded(s', bots[1..], keep, now, reachable);
      StartLoadedComplete(s', bots[1..], keep, now, reachable);
      StartLoadedSound(s', bots[1..], keep, now, reachable);
      forall i | 0 <= i < |bots| && keep(bots[i])
        ensures "token" in bots[i] && "id" in bots[i] && (reachable(bots[i]["token"]) ==> bots[i]["token"] in e.state.active)
      {
        if i > 0 {
          assert bots[i] == bots[1..][i - 1];
        }
      }
    }
  }

  /** The stopping loop leaves the keyspace alone, registers nothing, and
      unregisters only listed tokens whose session closed. */
  lemma {:induction false} StopListedKeeps(s: FleetState, bots: seq<Record>, closes: Value -> bool)
    ensures var e := StopListed(s, bots, closes);
      e.state.ks == s.ks
      && (forall t :: t in e.state.active ==> t in s.active && e.state.active[t] == s.active[t])
      && forall t :: t in s.active && t !in e.state.active ==> (closes(t) &&
        exists i :: 0 <= i < |bots| && "token" in bots[i] && bots[i]["token"] == t)
    decreases |bots|
  {
    if bots != [] && "token" in bots[0] && (bots[0]["token"] !in s.active || "id" in bots[0]) {
      var t0 := bots[0]["token"];
      var s' := if t0 in s.active then s.(active := if closes(t0) then s.active - {t0} else s.active) else s;
      var e := StopListed(s, bots, closes);
      assert e == StopListed(s', bots[1..], closes);
      StopListedKeeps(s', bots[1..], closes);
      forall t | t in s.active && t !in e.state.active
        ensures closes(t) && exists i :: 0 <= i < |bots| && "token" in bots[i] && bots[i]["token"] == t
      {
        if t !in s'.active {
          assert bots[0]["token"] == t;
        } else {
          var i :| 0 <= i < |bots[1..]| && "token" in bots[1..][i] && bots[1..][i]["token"] == t;
          assert bots[i + 1] == bots[1..][i];
        }
      }
    }
  }

  /** When the stopping loop finishes, every listed bot had a token, and no
      listed token whose session closes is left registered. */
  lemma {:induction false} StopListedComplete(s: FleetState, bots: seq<Record>, closes: Value -> bool)
    ensures var e := StopListed(s, bots, closes);
      !e.raised ==> forall i :: 0 <= i < |bots| ==> ("token" in bots[i] &&
        (closes(bots[i]["token"]) ==> bots[i]["token"] !in e.state.active))
    decreases |bots|
  {
    var e := StopListed(s, bots, closes);
    if bots != [] && !e.raised {
      var t0 := bots[0]["token"];
      var s' := if t0 in s.active then s.(active := if closes(t0) then s.active - {t0} else s.active) else s;
      assert e == StopListed(s', bots[1..], closes);
      StopListedComplete(s', bots[1..], closes);
      StopListedKeeps(s', bots[1..], closes);
      forall i | 0 <= i < |bots|
        ensures "token" in bots[i] && (closes(bots[i]["token"]) ==> bots[i]["token"] !in e.state.active)
      {
        if i > 0 {
          assert bots[i] == bots[1..][i - 1];
        }
      }
    }
  }

  /** As written, start-up starts a paused bot that answers. */
  lemma PausedBotRunsAsWritten(s: FleetState, now: int, reachable: Value -> bool)
    requires reachable(Str("123:abc"))
    ensures var r := map["id" := Str("01"), "token" := Str("123:abc"), "status" := Str("inactive")];
      IsStopped(r) && Str("123:abc") in StartLoaded(s, [r], StartsAsWritten, now, reachable).state.active
  {
  }

  /** With the intended filter, start-up registers or replaces only bots that
      are neither paused nor deleted. */
  lemma IntendedStartUpSkipsStopped(s: FleetState, bots: seq<Record>, now: int, reachable: Value -> bool)
    ensures var e := StartLoaded(s, bots, ShouldStart, now, reachable);
      forall t :: t in e.state.active && !(t in s.active && e.state.active[t] == s.active[t]) ==>
        exists i :: 0 <= i < |bots| && !IsStopped(bots[i]) && "token" in bots[i] && bots[i]["token"] == t && e.state.active[t] == Worker(bots[i])
  {
    StartLoadedSound(s, bots, ShouldStart, now, reachable);
    forall i | 0 <= i < |bots|
      ensures ShouldStart(bots[i]) ==> !IsStopped(bots[i])
    {
      ShouldStartExcludesStopped(bots[i]);
    }
  }

  /** `get_new_user_bots` raises on some stored bot's `created_at`. */
  predicate StampUnreadable(k: Keyspace)
  {
    exists x :: x in Stored(k.bots, k.allBots) && CreatedAt(x).None?
  }

  class Fleet {
    var active: map<Value, Worker>
    const db: Database

    constructor (db: Database)
      ensures this.db == db && active == map[]
    {
      this.db := db;
      active := map[];
    }

    /** `start_user_bot`: when the bot answers, its token enters `active_bots`
        and the store marks it "active"; otherwise nothing is registered and the
        store marks it "inactive". A record without `id` makes the status
        update raise, after the registration when the bot answered. */
    method StartUserBot(token: Value, data: Record, reachable: bool, now: int) returns (outcome: StartOutcome)
      modifies this, db
      ensures active == if reachable then old(active)[token := Worker(data)] else old(active)
      ensures outcome == if "id" !in data then Raised else if reachable then Started else Failed
      ensures db.ks == if "id" in data then WithStatus(old(db.ks), Show(data["id"]), reachable, now) else old(db.ks)
      ensures old(db.ks.Valid()) ==> db.ks.Valid()
    {
      if reachable {
        active := active[token := Worker(data)];
        if "id" !in data {
          return Raised;
        }
        var ok := db.UpdateUserBotStatus(Show(data["id"]), true, now);
        return Started;
      }
      if "id" !in data {
        return Raised;
      }
      var ok := db.UpdateUserBotStatus(Show(data["id"]), false, now);
      return Failed;
    }

    /** `stop_user_bot`: only a registered bot whose connection closes is
        removed, and exactly its key is removed. */
    method StopUserBot(token: Value, closes: bool) returns (ok: bool)
      modifies this
      ensures ok == (token in old(active) && closes)
      ensures active == if ok then old(active) - {token} else old(active)
    {
      if token in active {
        if closes {
          active := active - {token};
          return true;
        }
      }
      return false;
    }

    /** The first loop of a monitoring pass, as `StartNew` describes it. */
    method StartUnregistered(newBots: seq<Record>, now: int, reachable: Value -> bool) returns (raised: bool)
      modifies this, db
      ensures LoopEnd(FleetState(active, db.ks), raised) == StartNew(FleetState(old(active), old(db.ks)), newBots, now, reachable)
    {
      ghost var goal := StartNew(FleetState(active, db.ks), newBots, now, reachable);
      var i := 0;
      while i < |newBots|
        invariant 0 <= i <= |newBots|
        invariant StartNew(FleetState(active, db.ks), newBots[i..], now, reachable) == goal
      {
        var data := newBots[i];
        assert newBots[i..][0] == data && newBots[i..][1..] == newBots[i + 1..];
        if "token" !in data || (data["token"] !in active && "id" !in data) {
          return true;
        }
        var token := data["token"];
        if token !in active {
          var outcome := StartUserBot(token, data, reachable(token), now);
        }
        i := i + 1;
      }
      raised := false;
    }

    /** The second loop of a monitoring pass, as `StopListed` describes it. */
    method StopRegistered(stoppedBots: seq<Record>, closes: Value -> bool) returns (raised: bool)
      modifies this
      ensures LoopEnd(FleetState(active, db.ks), raised) == StopListed(FleetState(old(active), db.ks), stoppedBots, closes)
    {
      ghost var goal := StopListed(FleetState(active, db.ks), stoppedBots, closes);
      var j := 0;
      while j < |stoppedBots|
        invariant 0 <= j <= |stoppedBots|
        invariant StopListed(FleetState(active, db.ks), stoppedBots[j..], closes) == goal
      {
        var data := stoppedBots[j];
        assert stoppedBots[j..][0] == data && stoppedBots[j..][1..] == stoppedBots[j + 1..];
        if "token" !in data || (data["token"] in active && "id" !in data) {
          return true;
        }
        var token := data["token"];
        if token in active {
          var ok := StopUserBot(token, closes(token));
        }
        j := j + 1;
      }
      raised := false;
    }

    /** One iteration of `monitor_new_bots`. `raised` means the iteration left
        through its `except` branch; `next` is the `last_check` the loop keeps.
        `found` are the bots reported new, `starts` where the starting loop
        ended, and `stopped` the bots then reported inactive or deleted. */
    method MonitorPass(lastCheck: int, now: int, reachable: Value -> bool, closes: Value -> bool)
      returns (next: int, raised: bool, ghost found: seq<Record>, ghost starts: LoopEnd, ghost stopped: seq<Record>)
      modifies this, db
      ensures next >= lastCheck
      ensures StampUnreadable(old(db.ks)) ==> raised && next == lastCheck && active == old(active) && db.ks == old(db.ks)
      ensures !StampUnreadable(old(db.ks)) ==>
        (forall x :: x in found <==> x in Stored(old(db.ks.bots), old(db.ks.allBots)) && CreatedAfter(x, lastCheck))
        && starts == StartNew(FleetState(old(active), old(db.ks)), found, now, reachable)
      ensures !StampUnreadable(old(db.ks)) && (starts.raised || (found != [] && !AllStamped(found))) ==>
        raised && next == lastCheck && FleetState(active, db.ks) == starts.state
      ensures !StampUnreadable(old(db.ks)) && !starts.raised && (found == [] || AllStamped(found)) ==>
        next == (if found == [] then lastCheck else MaxCreatedAt(found))
        && (forall x :: x in stopped <==> x in Stored(starts.state.ks.bots, starts.state.ks.allBots) && IsStopped(x))
        && LoopEnd(FleetState(active, db.ks), raised) == StopListed(starts.state, stopped, closes)
      ensures !raised && found != [] ==> next > lastCheck
      ensures old(db.ks.Valid()) ==> db.ks.Valid()
    {
      ghost var s0 := FleetState(active, db.ks);
      var newBots, unreadable;
      ghost var order;
      newBots, unreadable, order := db.GetNewUserBots(lastCheck);
      found, stopped := newBots, [];
      starts := StartNew(s0, newBots, now, reachable);
      next := lastCheck;
      if unreadable {
        return lastCheck, true, found, starts, stopped;
      }
      StartNewKeeps(s0, newBots, now, reachable);
      raised := StartUnregistered(newBots, now, reachable);
      if raised {
        return;
      }
      if newBots != [] {
        if !AllStamped(newBots) {
          raised := true;
          return;
        }
        next := MaxCreatedAt(newBots);
        assert CreatedAfter(newBots[0], lastCheck);
      }
      var stoppedBots;
      ghost var order2;
      stoppedBots, order2 := db.GetStoppedUserBots();
      stopped := stoppedBots;
      raised := StopRegistered(stoppedBots, closes);
      StopListedKeeps(starts.state, stoppedBots, closes);
    }

    /** The loop of `run_user_bots` over the loaded bots, with the filter
        `keep`, as `StartLoaded` describes it. A raise escapes `run_user_bots`. */
    method StartEach(bots: seq<Record>, keep: Record -> bool, now: int, reachable: Value -> bool) returns (raised: bool)
      modifies this, db
      ensures LoopEnd(FleetState(active, db.ks), raised) == StartLoaded(FleetState(old(active), old(db.ks)), bots, keep, now, reachable)
    {
      ghost var goal := StartLoaded(FleetState(active, db.ks), bots, keep, now, reachable);
      var i := 0;
      while i < |bots|
        invariant 0 <= i <= |bots|
        invariant StartLoaded(FleetState(active, db.ks), bots[i..], keep, now, reachable) == goal
      {
        var data := bots[i];
        assert bots[i..][0] == data && bots[i..][1..] == bots[i + 1..];
        if keep(data) {
          if "token" !in data {
            return true;
          }
          var outcome := StartUserBot(data["token"], data, reachable(data["token"]), now);
          if outcome == Raised {
            return true;
          }
        }
        i := i + 1;
      }
      raised := false;
    }

    /** `run_user_bots` as written: every loaded bot with a truthy status is
        started. `loaded` are the bots read from the store. */
    method RunUserBotsAsWritten(now: int, reachable: Value -> bool) returns (raised: bool, ghost loaded: seq<Record>)
      modifies this, db
      ensures forall x :: x in loaded <==> x in Stored(old(db.ks.bots), old(db.ks.allBots))
      ensures LoopEnd(FleetState(active, db.ks), raised) ==
        StartLoaded(FleetState(old(active), old(db.ks)), loaded, StartsAsWritten, now, reachable)
    {
      var all;
      ghost var order;
      all, order := db.GetAllUserBots();
      loaded := all;
      raised := StartEach(all, StartsAsWritten, now, reachable);
    }

    /** `run_user_bots` with the intended filter: only bots whose status is
        "active" are started. */
    method RunUserBots(now: int, reachable: Value -> bool) returns (raised: bool, ghost loaded: seq<Record>)
      modifies this, db
      ensures forall x :: x in loaded <==> x in Stored(old(db.ks.bots), old(db.ks.allBots))
      ensures LoopEnd(FleetState(active, db.ks), raised) ==
        StartLoaded(FleetState(old(active), old(db.ks)), loaded, ShouldStart, now, reachable)
    {
      var all;
      ghost var order;
      all, order := db.GetAllUserBots();
      loaded := all;
      raised := StartEach(all, ShouldStart, now, reachable);
    }
  }
}
