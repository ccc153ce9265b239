/** The bot-state diff of app/bot.server.ts: `compareBotStates` turns the
    previous and the freshly fetched bot-state lists into the start and kill
    requests it issues, and `monitorBotStates` keeps the previous list.

    The requests are returned as a list of actions, in the order the source
    issues them; the session lookup of an updated bot (`getBotSessionById`)
    is a function supplied by the caller. */
module BotStates {
  import opened Wrappers

  datatype BotStatus = Offline | Connecting | Online

  /** The fields of a stored bot state that the diff reads. */
  datatype BotState = BotState(id: string, sessionId: string, status: BotStatus)

  /** `startBot(bot)` and `killBot(x)`. */
  datatype BotAction = StartBot(bot: BotState) | KillBot(target: string)

  /** The `enabled` flag of the session with the given id, `None` when there
      is no such session. */
  type SessionEnabled = string -> Option<bool>

  /** `new Set(bots.map((bot) => bot.id))`. */
  function Ids(bots: seq<BotState>): set<string>
  {
    set b | b in bots :: b.id
  }

  /** `bots.find((b) => b.id === id)`: the first bot with that id. */
  function Find(bots: seq<BotState>, id: string): (r: Option<BotState>)
    ensures r.None? <==> id !in Ids(bots)
    ensures r.Some? ==> exists k :: 0 <= k < |bots| && bots[k] == r.value && r.value.id == id
                                    && forall j :: 0 <= j < k ==> bots[j].id != id
    decreases |bots|
  {
    if |bots| == 0 then None
    else if bots[0].id == id then Some(bots[0])
    else
      var r := Find(bots[1..], id);
      assert Ids(bots) == {bots[0].id} + Ids(bots[1..]) by {
        forall x | x in Ids(bots) ensures x in {bots[0].id} + Ids(bots[1..]) {
          var b :| b in bots && b.id == x;
          if b != bots[0] { assert b in bots[1..]; }
        }
      }
      if r.Some? then
        var k :| 0 <= k < |bots[1..]| && bots[1..][k] == r.value && r.value.id == id
                 && forall j :: 0 <= j < k ==> bots[1..][j].id != id;
        assert bots[k + 1] == r.value;
        assert forall j :: 0 <= j < k + 1 ==> bots[j].id != id by {
          forall j | 0 <= j < k + 1 ensures bots[j].id != id {
            if j > 0 { assert bots[j] == bots[1..][j - 1]; }
          }
        }
        r
      else r
  }

  /** `bots.filter(p)`. */
  function Filter(bots: seq<BotState>, p: BotState -> bool): (r: seq<BotState>)
    ensures |r| <= |bots|
    ensures forall b :: b in r <==> b in bots && p(b)
    ensures (forall b :: b in bots ==> !p(b)) ==> r == []
    ensures multiset(r) <= multiset(bots)
    ensures forall b :: b in bots && p(b) ==> multiset(r)[b] == multiset(bots)[b]
    decreases |bots|
  {
    if |bots| == 0 then []
    else
      assert bots == [bots[0]] + bots[1..];
      if p(bots[0]) then [bots[0]] + Filter(bots[1..], p)
      else Filter(bots[1..], p)
  }

  /** The bots of `current` whose id `previous` does not have. */
  function Created(previous: seq<BotState>, current: seq<BotState>): (r: seq<BotState>)
    ensures forall b :: b in r <==> b in current && b.id !in Ids(previous)
  {
    Filter(current, (b: BotState) => b.id !in Ids(previous))
  }

  /** The bots of `previous` whose id `current` does not have. */
  function Deleted(previous: seq<BotState>, current: seq<BotState>): (r: seq<BotState>)
    ensures forall b :: b in r <==> b in previous && b.id !in Ids(current)
  {
    Filter(previous, (b: BotState) => b.id !in Ids(current))
  }

  /** A bot whose first namesake in `previous` has another status or session. */
  predicate IsUpdated(previous: seq<BotState>, bot: BotState)
  {
    match Find(previous, bot.id)
    case None => false
    case Some(p) => p.status != bot.status || p.sessionId != bot.sessionId
  }

  function Updated(previous: seq<BotState>, current: seq<BotState>): (r: seq<BotState>)
    ensures forall b :: b in r <==> b in current && IsUpdated(previous, b)
  {
    Filter(current, (b: BotState) => IsUpdated(previous, b))
  }

  /** What one updated bot issues: a kill of its session when that session
      exists and is disabled, then a start when the bot is offline. */
  function UpdateActions(bot: BotState, enabled: SessionEnabled): (r: seq<BotAction>)
    ensures |r| <= 2
    ensures KillBot(bot.sessionId) in r <==> enabled(bot.sessionId) == Some(false)
    ensures StartBot(bot) in r <==> bot.status == Offline
    ensures forall a :: a in r ==> a == KillBot(bot.sessionId) || a == StartBot(bot)
  {
    (if enabled(bot.sessionId) == Some(false) then [KillBot(bot.sessionId)] else [])
    + (if bot.status == Offline then [StartBot(bot)] else [])
  }

  /** `createdBots.forEach((bot) => startBot(bot))`. */
  function StartAll(bots: seq<BotState>): (r: seq<BotAction>)
    ensures forall a :: a in r <==> a.StartBot? && a.bot in bots
    decreases |bots|
  {
    if |bots| == 0 then [] else [StartBot(bots[0])] + StartAll(bots[1..])
  }

  /** `deletedBots.forEach((bot) => killBot(bot.id))`: by bot id. */
  function KillAll(bots: seq<BotState>): (r: seq<BotAction>)
    ensures forall a :: a in r <==> a.KillBot? && a.target in Ids(bots)
    decreases |bots|
  {
    if |bots| == 0 then []
    else
      var r := [KillBot(bots[0].id)] + KillAll(bots[1..]);
      assert Ids(bots) == {bots[0].id} + Ids(bots[1..]) by {
        forall x | x in Ids(bots) ensures x in {bots[0].id} + Ids(bots[1..]) {
          var b :| b in bots && b.id == x;
          if b != bots[0] { assert b in bots[1..]; }
        }
      }
      r
  }

  /** `updatedBots.forEach(...)`: the actions of each updated bot in order. */
  function UpdateAll(bots: seq<BotState>, enabled: SessionEnabled): (r: seq<BotAction>)
    ensures forall a :: a in r <==> exists b :: b in bots && a in UpdateActions(b, enabled)
    decreases |bots|
  {
    if |bots| == 0 then []
    else
      var r := UpdateActions(bots[0], enabled) + UpdateAll(bots[1..], enabled);
      assert forall b :: b in bots <==> b == bots[0] || b in bots[1..];
      r
  }

  /** `compareBotStates(previous, current)`. */
  function CompareBotStates(previous: seq<BotState>, current: seq<BotState>,
                            enabled: SessionEnabled): seq<BotAction>
  {
    StartAll(Created(previous, current))
    + KillAll(Deleted(previous, current))
    + UpdateAll(Updated(previous, current), enabled)
  }

  /** Created and deleted ids are the two set differences, hence disjoint. */
  lemma CreatedDeletedIds(previous: seq<BotState>, current: seq<BotState>)
    ensures Ids(Created(previous, current)) == Ids(current) - Ids(previous)
    ensures Ids(Deleted(previous, current)) == Ids(previous) - Ids(current)
    ensures Ids(Created(previous, current)) !! Ids(Deleted(previous, current))
  {
    var c := Created(previous, current);
    forall x | x in Ids(current) - Ids(previous) ensures x in Ids(c) {
      var b :| b in current && b.id == x;
      assert b in c;
    }
    var d := Deleted(previous, current);
    forall x | x in Ids(previous) - Ids(current) ensures x in Ids(d) {
      var b :| b in previous && b.id == x;
      assert b in d;
    }
  }

  /** A bot is started exactly when it is new, or updated and offline. */
  lemma StartIff(previous: seq<BotState>, current: seq<BotState>, enabled: SessionEnabled,
                 bot: BotState)
    ensures StartBot(bot) in CompareBotStates(previous, current, enabled)
        <==> bot in current
             && (bot.id !in Ids(previous) || (IsUpdated(previous, bot) && bot.status == Offline))
  {
    var u := Updated(previous, current);
    if StartBot(bot) in UpdateAll(u, enabled) {
      var b :| b in u && StartBot(bot) in UpdateActions(b, enabled);
    }
    if bot in current && IsUpdated(previous, bot) && bot.status == Offline {
      assert StartBot(bot) in UpdateActions(bot, enabled);
    }
  }

  lemma KillFromUpdates(previous: seq<BotState>, current: seq<BotState>, enabled: SessionEnabled,
                        target: string)
    ensures KillBot(target) in UpdateAll(Updated(previous, current), enabled)
        <==> enabled(target) == Some(false)
             && exists b :: b in current && IsUpdated(previous, b) && b.sessionId == target
  {
    var u := Updated(previous, current);
    if KillBot(target) in UpdateAll(u, enabled) {
      var b :| b in u && KillBot(target) in UpdateActions(b, enabled);
      assert b.sessionId == target;
    }
    if enabled(target) == Some(false)
       && exists b :: b in current && IsUpdated(previous, b) && b.sessionId == target {
      var b :| b in current && IsUpdated(previous, b) && b.sessionId == target;
      assert KillBot(target) in UpdateActions(b, enabled);
    }
  }

  /** A kill is issued for the id of a deleted bot, and for the session of an
      updated bot whose session exists and is disabled; for nothing else. */
  lemma KillIff(previous: seq<BotState>, current: seq<BotState>, enabled: SessionEnabled,
                target: string)
    ensures KillBot(target) in CompareBotStates(previous, current, enabled)
        <==> (target in Ids(previous) && target !in Ids(current))
             || (enabled(target) == Some(false)
                 && exists b :: b in current && IsUpdated(previous, b) && b.sessionId == target)
  {
    CreatedDeletedIds(previous, current);
    KillFromUpdates(previous, current, enabled, target);
    var s := StartAll(Created(previous, current));
    var k := KillAll(Deleted(previous, current));
    var u := UpdateAll(Updated(previous, current), enabled);
    assert KillBot(target) !in s;
    assert KillBot(target) in k <==> target in Ids(previous) - Ids(current);
    assert KillBot(target) in s + k + u <==> KillBot(target) in k || KillBot(target) in u;
  }

  /** A bot whose first namesake in the previous list has the same status and
      session is neither created nor updated, and is not started. */
  lemma UnchangedBotIsLeftAlone(previous: seq<BotState>, current: seq<BotState>,
                                enabled: SessionEnabled, bot: BotState)
    requires Find(previous, bot.id).Some?
    requires Find(previous, bot.id).value.status == bot.status
    requires Find(previous, bot.id).value.sessionId == bot.sessionId
    ensures bot !in Created(previous, current)
    ensures bot !in Updated(previous, current)
    ensures StartBot(bot) !in CompareBotStates(previous, current, enabled)
  {
    StartIff(previous, current, enabled, bot);
  }

  /** Ids are unique, as primary keys are. */
  predicate DistinctIds(bots: seq<BotState>)
  {
    forall i, j :: 0 <= i < j < |bots| ==> bots[i].id != bots[j].id
  }

  /** Comparing a list of uniquely keyed bots with itself issues nothing: a
      monitor tick that fetches an unchanged list does nothing. */
  lemma FindDistinct(bots: seq<BotState>, i: nat)
    requires DistinctIds(bots)
    requires i < |bots|
    ensures Find(bots, bots[i].id) == Some(bots[i])
  {
    var p := Find(bots, bots[i].id).value;
    var k :| 0 <= k < |bots| && bots[k] == p && p.id == bots[i].id
             && forall j :: 0 <= j < k ==> bots[j].id != bots[i].id;
    assert !(i < k);
  }

  lemma SameListNoActions(bots: seq<BotState>, enabled: SessionEnabled)
    requires DistinctIds(bots)
    ensures CompareBotStates(bots, bots, enabled) == []
  {
    forall b | b in bots ensures !IsUpdated(bots, b) {
      var i :| 0 <= i < |bots| && bots[i] == b;
      FindDistinct(bots, i);
    }
  }

  /** The module-level `previousBotStates` and the interval body that
      refreshes it. */
  class BotMonitor {
    var previousBotStates: seq<BotState>

    constructor()
      ensures previousBotStates == []
    {
      previousBotStates := [];
    }

    /** `monitorBotStates`: `fetched` is the outcome of `getBotStates()`.
        On success the diff against the kept list is issued and the fetched
        list is kept; on failure the error is logged, nothing is issued and
        the kept list stays. */
    method MonitorBotStates(fetched: Result<seq<BotState>, string>, enabled: SessionEnabled)
      returns (actions: seq<BotAction>)
      modifies this
      ensures fetched.Ok? ==>
        actions == CompareBotStates(old(previousBotStates), fetched.value, enabled)
        && previousBotStates == fetched.value
      ensures fetched.Err? ==> actions == [] && previousBotStates == old(previousBotStates)
    {
      match fetched
      case Ok(current) =>
        actions := CompareBotStates(previousBotStates, current, enabled);
        previousBotStates := current;
      case Err(_) =>
        actions := [];
    }
  }

  /** The first tick starts every fetched bot and kills nothing. */
  method FirstTickStartsAll(current: seq<BotState>, enabled: SessionEnabled)
    returns (actions: seq<BotAction>)
    ensures forall a :: a in actions <==> a.StartBot? && a.bot in current
  {
    var monitor := new BotMonitor();
    actions := monitor.MonitorBotStates(Ok(current), enabled);
    assert Ids([]) == {};
  }
}
