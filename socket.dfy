/** The in-process race coordinator (src/services/socket.ts): one room record, a
    registry of event listeners, and the timers that admit the bot, count down and
    drive the bot. Every timer callback is a step method of its own; the random
    numbers, the clock and the generated texts are parameters. */
module Socket {
  import opened Types
  import opened Logic

  /** The identity of a registered callback (listeners are compared by reference). */
  type Listener = nat

  datatype Payload = RoomSnapshot(room: RaceRoomState) | RaceStartPayload(startTime: int)

  /** One call of `broadcast`. */
  datatype Message = Message(event: string, payload: Payload)

  /** One invocation of a listener. */
  datatype Delivery = Delivery(listener: Listener, payload: Payload)

  const RoomUpdate: string := "room_update"
  const RaceStart: string := "race_start"
  const BotName: string := "Bot_Racer_9000"
  const BotColor: string := "#f43f5e"
  const PlayerColor: string := "#06b6d4"
  const CountdownStart: nat := 3
  const FallbackTextLength: nat := 150

  // ---------------------------------------------------------------- players

  predicate HasBot(players: seq<RacePlayer>)
  {
    exists i :: 0 <= i < |players| && players[i].isBot
  }

  predicate HasId(players: seq<RacePlayer>, id: string)
  {
    exists i :: 0 <= i < |players| && players[i].id == id
  }

  /** The roster shape the coordinator keeps: every player is the human or the bot,
      the bot flag agrees with the id, and no id occurs twice. */
  predicate WellFormedRoster(players: seq<RacePlayer>)
  {
    && (forall i :: 0 <= i < |players| ==>
          (players[i].id == PlayerId || players[i].id == BotId) && (players[i].isBot <==> players[i].id == BotId))
    && (forall i, j :: 0 <= i < j < |players| ==> players[i].id != players[j].id)
  }

  /** A well-formed roster holds at most one bot. */
  lemma AtMostOneBot(players: seq<RacePlayer>)
    requires WellFormedRoster(players)
    ensures forall i, j :: 0 <= i < |players| && 0 <= j < |players| && players[i].isBot && players[j].isBot ==> i == j
  {
  }

  function NewPlayer(username: string, isBot: bool): (p: RacePlayer)
  {
    RacePlayer(if isBot then BotId else PlayerId, username, 0.0, 0.0, isBot, if isBot then BotColor else PlayerColor)
  }

  /** addPlayer's effect on the roster: a second bot and a taken id are refused;
      otherwise one fresh player is appended and everyone else is left as they were. */
  function Admit(players: seq<RacePlayer>, username: string, isBot: bool): (r: seq<RacePlayer>)
    ensures |players| <= |r| <= |players| + 1 && r[..|players|] == players
    ensures |r| == |players| + 1 <==>
      !(isBot && HasBot(players)) && !HasId(players, if isBot then BotId else PlayerId)
    ensures |r| == |players| + 1 ==> r[|players|] == NewPlayer(username, isBot)
    ensures WellFormedRoster(players) ==> WellFormedRoster(r)
  {
    var id := if isBot then BotId else PlayerId;
    if isBot && HasBot(players) then players
    else if HasId(players, id) then players
    else
      var r := players + [NewPlayer(username, isBot)];
      assert r[..|players|] == players;
      r
  }

  /** Admitting the same role twice changes nothing the second time: repeated joins
      never duplicate the human, and repeated bot joins never add a second bot. */
  lemma AdmitTwice(players: seq<RacePlayer>, username: string, again: string, isBot: bool)
    ensures Admit(Admit(players, username, isBot), again, isBot) == Admit(players, username, isBot)
  {
    var once := Admit(players, username, isBot);
    var id := if isBot then BotId else PlayerId;
    if |once| == |players| + 1 {
      assert once[|players|].id == id;
      assert HasId(once, id);
    } else {
      assert once == players;
    }
  }

  /** `players.find(p => p.id === id)`: the index of the first player with that id. */
  function FindId(players: seq<RacePlayer>, id: string): (k: Option<nat>)
    ensures k.None? <==> !HasId(players, id)
    ensures k.Some? ==> k.value < |players| && players[k.value].id == id
    ensures k.Some? ==> forall j :: 0 <= j < k.value ==> players[j].id != id
  {
    if |players| == 0 then None
    else if players[0].id == id then Some(0)
    else
      match FindId(players[1..], id)
      case None =>
        assert forall i :: 1 <= i < |players| ==> players[i] == players[1..][i - 1];
        None
      case Some(k) =>
        assert players[k + 1] == players[1..][k];
        Some(k + 1)
  }

  /** `players.find(p => p.isBot)`: the index of the first bot. */
  function FindBot(players: seq<RacePlayer>): (k: Option<nat>)
    ensures k.None? <==> !HasBot(players)
    ensures k.Some? ==> k.value < |players| && players[k.value].isBot
    ensures k.Some? ==> forall j :: 0 <= j < k.value ==> !players[j].isBot
  {
    if |players| == 0 then None
    else if players[0].isBot then Some(0)
    else
      match FindBot(players[1..])
      case None =>
        assert forall i :: 1 <= i < |players| ==> players[i] == players[1..][i - 1];
        None
      case Some(k) =>
        assert players[k + 1] == players[1..][k];
        Some(k + 1)
  }

  /** The `update_progress` case on the roster: the player with that id takes the
      reported values verbatim, and nobody else changes. */
  function Report(players: seq<RacePlayer>, id: string, progress: real, wpm: real): (r: seq<RacePlayer>)
    ensures |r| == |players|
    ensures forall i :: 0 <= i < |players| ==> r[i].id == players[i].id && r[i].isBot == players[i].isBot
    ensures forall i :: 0 <= i < |players| && players[i].id != id ==> r[i] == players[i]
    ensures WellFormedRoster(players) ==>
      forall i :: 0 <= i < |players| && players[i].id == id ==> r[i] == players[i].(progress := progress, wpm := wpm)
    ensures !HasId(players, id) ==> r == players
    ensures WellFormedRoster(players) ==> WellFormedRoster(r)
  {
    match FindId(players, id)
    case None => players
    case Some(k) => players[k := players[k].(progress := progress, wpm := wpm)]
  }

  /** The bot's speed for one tick: `Math.max(10, 60 + variance)`. */
  function BotWpm(variance: real): (wpm: real)
    ensures 10.0 <= wpm && 60.0 + variance <= wpm
    ensures wpm == 10.0 || wpm == 60.0 + variance
  {
    if 60.0 + variance < 10.0 then 10.0 else 60.0 + variance
  }

  /** One bot tick on the bot record: a fresh speed and the share of the text that
      speed types in one second, capped at 100. An empty text counts as 150 characters. */
  function BotAdvance(bot: RacePlayer, variance: real, textLength: nat): (b: RacePlayer)
    requires -5.0 <= variance < 5.0
    ensures b == bot.(progress := b.progress, wpm := b.wpm)
    ensures b.wpm == BotWpm(variance) && b.wpm == 60.0 + variance
    ensures 55.0 <= b.wpm < 65.0
    ensures var len := if textLength == 0 then FallbackTextLength else textLength;
      b.progress == MinReal(100.0, bot.progress + (b.wpm / 12.0) * 100.0 / len as real)
    ensures b.progress <= 100.0
    ensures bot.progress <= 100.0 ==> b.progress >= bot.progress
    ensures bot.progress < 100.0 ==> b.progress > bot.progress
  {
    var wpm := BotWpm(variance);
    var totalChars := if textLength == 0 then FallbackTextLength else textLength;
    var charsPerSec := (wpm / 60.0) * 5.0;
    var increment := (charsPerSec / totalChars as real) * 100.0;
    assert charsPerSec > 0.0;
    assert charsPerSec / totalChars as real > 0.0;
    assert charsPerSec == wpm / 12.0;
    assert increment == (wpm / 12.0) * 100.0 / totalChars as real;
    bot.(wpm := wpm, progress := MinReal(100.0, bot.progress + increment))
  }

  /** `forEach` in play_again: every player keeps id and name, with scores zeroed. */
  function ResetScores(players: seq<RacePlayer>): (r: seq<RacePlayer>)
    ensures |r| == |players|
    ensures forall i :: 0 <= i < |r| ==> r[i] == players[i].(progress := 0.0, wpm := 0.0)
  {
    seq(|players|, i requires 0 <= i < |players| => players[i].(progress := 0.0, wpm := 0.0))
  }

  // ---------------------------------------------------------------- room

  predicate AnyFinished(players: seq<RacePlayer>)
  {
    exists i :: 0 <= i < |players| && players[i].progress >= 100.0
  }

  /** checkWinCondition on the room record. */
  function WinCheck(room: RaceRoomState): (r: RaceRoomState)
    ensures room.status == Finished ==> r == room
    ensures r.status == Finished <==> room.status == Finished || AnyFinished(room.players)
    ensures r.status != Finished ==> r.status == room.status
    ensures r == room.(status := r.status)
  {
    if room.status == Finished then room
    else if AnyFinished(room.players) then room.(status := Finished)
    else room
  }

  /** A second win check right after the first never changes anything. */
  lemma WinCheckIdempotent(room: RaceRoomState)
    ensures WinCheck(WinCheck(room)) == WinCheck(room)
  {
  }

  /** resetState's room: a new id and text, nobody in it, and `countdown: 3` while
      the status is still `waiting`. */
  function FreshRoom(roomId: string, text: string): (room: RaceRoomState)
    ensures room.roomId == roomId && room.text == text && room.startTime == None
    ensures room.status == Waiting && room.countdown == Some(CountdownStart)
    ensures room.players == [] && WellFormedRoster(room.players) && !AnyFinished(room.players)
  {
    RaceRoomState(roomId, Waiting, [], text, None, Some(CountdownStart))
  }

  // ---------------------------------------------------------------- listeners

  function Subscribers(listeners: map<string, seq<Listener>>, event: string): (callbacks: seq<Listener>)
  {
    if event in listeners then listeners[event] else []
  }

  /** `filter(cb => cb !== callback)`. */
  function Without(callbacks: seq<Listener>, callback: Listener): (r: seq<Listener>)
    ensures callback !in r
    ensures forall x :: x != callback ==> multiset(r)[x] == multiset(callbacks)[x]
  {
    if |callbacks| == 0 then []
    else
      assert callbacks == [callbacks[0]] + callbacks[1..];
      (if callbacks[0] == callback then [] else [callbacks[0]]) + Without(callbacks[1..], callback)
  }

  /** Filtering works element by element, so the surviving callbacks keep their order. */
  lemma {:induction false} WithoutConcat(a: seq<Listener>, b: seq<Listener>, callback: Listener)
    ensures Without(a + b, callback) == Without(a, callback) + Without(b, callback)
  {
    if |a| > 0 {
      assert (a + b)[1..] == a[1..] + b;
      WithoutConcat(a[1..], b, callback);
    } else {
      assert a + b == b;
    }
  }

  lemma {:induction false} WithoutAbsent(callbacks: seq<Listener>, callback: Listener)
    requires callback !in callbacks
    ensures Without(callbacks, callback) == callbacks
  {
    if |callbacks| > 0 {
      WithoutAbsent(callbacks[1..], callback);
      assert callbacks == [callbacks[0]] + callbacks[1..];
    }
  }

  /** `off` undoes an `on` of a callback that was not registered before. */
  lemma OffUndoesOn(callbacks: seq<Listener>, callback: Listener)
    requires callback !in callbacks
    ensures Without(callbacks + [callback], callback) == callbacks
  {
    WithoutConcat(callbacks, [callback], callback);
    WithoutAbsent(callbacks, callback);
    assert Without([callback], callback) == [];
  }

  /** The invocations one broadcast makes, in registration order. */
  function DeliveriesTo(callbacks: seq<Listener>, payload: Payload): (d: seq<Delivery>)
    ensures |d| == |callbacks|
    ensures forall k :: 0 <= k < |d| ==> d[k] == Delivery(callbacks[k], payload)
  {
    seq(|callbacks|, k requires 0 <= k < |callbacks| => Delivery(callbacks[k], payload))
  }

  // ---------------------------------------------------------------- the service

  class MockSocketService {
    var listeners: map<string, seq<Listener>>
    var state: RaceRoomState
    /** The bot interval started by startRace is live. */
    var botIntervalActive: bool
    /** The stored bot-join timeout is pending. */
    var botJoinPending: bool
    /** The `count` of every live countdown interval; the handles are local, so
        nothing ever cancels them and several can run at once. */
    var countdownTimers: seq<nat>
    /** One-second timeouts that will call startCountdown; their handles are never kept. */
    var pendingCountdownStarts: nat
    ghost var broadcasts: seq<Message>
    ghost var deliveries: seq<Delivery>

    ghost predicate Valid()
      reads this
    {
      && WellFormedRoster(state.players)
      && (forall k :: 0 <= k < |countdownTimers| ==> 1 <= countdownTimers[k] <= CountdownStart)
      && (state.status == Finished ==> |state.players| > 0)
    }

    /** The invocations a broadcast of `payload` on `event` makes now. */
    ghost function Fanout(event: string, payload: Payload): seq<Delivery>
      reads this
    {
      DeliveriesTo(Subscribers(listeners, event), payload)
    }

    /** The constructor runs resetState on an empty registry. */
    constructor (roomId: string, text: string)
      ensures Valid()
      ensures state == FreshRoom(roomId, text) && listeners == map[]
      ensures !botIntervalActive && !botJoinPending && countdownTimers == [] && pendingCountdownStarts == 0
      ensures broadcasts == [] && deliveries == []
    {
      listeners := map[];
      state := FreshRoom(roomId, text);
      botIntervalActive := false;
      botJoinPending := false;
      countdownTimers := [];
      pendingCountdownStarts := 0;
      broadcasts := [];
      deliveries := [];
    }

    /** resetState: cancels the stored timers and installs a fresh room. */
    method ResetState(roomId: string, text: string)
      requires Valid()
      modifies this
      ensures Valid()
      ensures state == FreshRoom(roomId, text)
      ensures !botIntervalActive && !botJoinPending
      ensures listeners == old(listeners) && countdownTimers == old(countdownTimers)
      ensures pendingCountdownStarts == old(pendingCountdownStarts)
      ensures broadcasts == old(broadcasts) && deliveries == old(deliveries)
    {
      botJoinPending := false;
      botIntervalActive := false;
      state := FreshRoom(roomId, text);
    }

    method On(event: string, callback: Listener)
      modifies this`listeners
      ensures listeners == old(listeners)[event := Subscribers(old(listeners), event) + [callback]]
    {
      if event !in listeners {
        listeners := listeners[event := []];
      }
      listeners := listeners[event := listeners[event] + [callback]];
    }

    method Off(event: string, callback: Listener)
      modifies this`listeners
      ensures event !in old(listeners) ==> listeners == old(listeners)
      ensures event in old(listeners) ==> listeners == old(listeners)[event := Without(old(listeners)[event], callback)]
    {
      if event !in listeners {
        return;
      }
      listeners := listeners[event := Without(listeners[event], callback)];
    }

    /** broadcast: every listener of the event, in registration order, gets the payload. */
    method Broadcast(event: string, payload: Payload)
      modifies this`broadcasts, this`deliveries
      ensures broadcasts == old(broadcasts) + [Message(event, payload)]
      ensures deliveries == old(deliveries) + Fanout(event, payload)
    {
      broadcasts := broadcasts + [Message(event, payload)];
      var callbacks := Subscribers(listeners, event);
      var i := 0;
      while i < |callbacks|
        invariant 0 <= i <= |callbacks|
        invariant broadcasts == old(broadcasts) + [Message(event, payload)]
        invariant deliveries == old(deliveries) + DeliveriesTo(callbacks[..i], payload)
      {
        deliveries := deliveries + [Delivery(callbacks[i], payload)];
        i := i + 1;
      }
      assert callbacks[..i] == callbacks;
    }

    /** addPlayer. */
    method AddPlayer(username: string, isBot: bool)
      modifies this`state
      ensures state == old(state).(players := Admit(old(state.players), username, isBot))
    {
      if isBot && HasBot(state.players) {
        return;
      }
      var id := if isBot then BotId else PlayerId;
      if HasId(state.players, id) {
        return;
      }
      state := state.(players := state.players + [NewPlayer(username, isBot)]);
    }

    /** The `join_room` case: admit the human, broadcast, and arm the bot-join timeout
        (cancelling an earlier one) when the human is alone and there is no bot. */
    method JoinRoom(username: string)
      requires Valid()
      modifies this
      ensures Valid()
      ensures state == old(state).(players := Admit(old(state.players), username, false))
      ensures broadcasts == old(broadcasts) + [Message(RoomUpdate, RoomSnapshot(state))]
      ensures deliveries == old(deliveries) + Fanout(RoomUpdate, RoomSnapshot(state))
      ensures botJoinPending == (old(botJoinPending) || (|state.players| == 1 && !HasBot(state.players)))
      ensures listeners == old(listeners) && botIntervalActive == old(botIntervalActive)
      ensures countdownTimers == old(countdownTimers) && pendingCountdownStarts == old(pendingCountdownStarts)
    {
      AddPlayer(username, false);
      Broadcast(RoomUpdate, RoomSnapshot(state));
      var hasBot := HasBot(state.players);
      if |state.players| == 1 && !hasBot {
        // clearTimeout then a new setTimeout: one bot join is pending either way
        botJoinPending := true;
      }
    }

    /** The bot-join timeout fires: admit the bot, broadcast, and schedule a
        startCountdown one second later (that handle is never stored). */
    method BotJoinFires()
      requires Valid() && botJoinPending
      modifies this
      ensures Valid()
      ensures !botJoinPending
      ensures state == old(state).(players := Admit(old(state.players), BotName, true))
      ensures broadcasts == old(broadcasts) + [Message(RoomUpdate, RoomSnapshot(state))]
      ensures deliveries == old(deliveries) + Fanout(RoomUpdate, RoomSnapshot(state))
      ensures pendingCountdownStarts == old(pendingCountdownStarts) + 1
      ensures listeners == old(listeners) && botIntervalActive == old(botIntervalActive)
      ensures countdownTimers == old(countdownTimers)
    {
      botJoinPending := false;
      AddPlayer(BotName, true);
      Broadcast(RoomUpdate, RoomSnapshot(state));
      pendingCountdownStarts := pendingCountdownStarts + 1;
    }

    /** One of the untracked one-second timeouts fires and calls startCountdown. */
    method CountdownStartFires()
      requires Valid() && pendingCountdownStarts > 0
      modifies this
      ensures Valid()
      ensures pendingCountdownStarts == old(pendingCountdownStarts) - 1
      ensures old(state.status) == Racing || old(state.status) == Countdown ==>
        state == old(state) && countdownTimers == old(countdownTimers)
        && broadcasts == old(broadcasts) && deliveries == old(deliveries)
      ensures old(state.status) == Waiting || old(state.status) == Finished ==>
        && state == old(state).(status := Countdown, countdown := Some(CountdownStart))
        && countdownTimers == old(countdownTimers) + [CountdownStart]
        && broadcasts == old(broadcasts) + [Message(RoomUpdate, RoomSnapshot(state))]
        && deliveries == old(deliveries) + Fanout(RoomUpdate, RoomSnapshot(state))
      ensures listeners == old(listeners) && botIntervalActive == old(botIntervalActive)
      ensures botJoinPending == old(botJoinPending)
    {
      pendingCountdownStarts := pendingCountdownStarts - 1;
      StartCountdown();
    }

    /** startCountdown: ignored while counting down or racing; otherwise enter the
        countdown at 3, broadcast, and start a new countdown interval. */
    method StartCountdown()
      requires Valid()
      modifies this
      ensures Valid()
      ensures old(state.status) == Racing || old(state.status) == Countdown ==>
        state == old(state) && countdownTimers == old(countdownTimers)
        && broadcasts == old(broadcasts) && deliveries == old(deliveries)
      ensures old(state.status) == Waiting || old(state.status) == Finished ==>
        && state == old(state).(status := Countdown, countdown := Some(CountdownStart))
        && countdownTimers == old(countdownTimers) + [CountdownStart]
        && broadcasts == old(broadcasts) + [Message(RoomUpdate, RoomSnapshot(state))]
        && deliveries == old(deliveries) + Fanout(RoomUpdate, RoomSnapshot(state))
      ensures listeners == old(listeners) && botIntervalActive == old(botIntervalActive)
      ensures botJoinPending == old(botJoinPending) && pendingCountdownStarts == old(pendingCountdownStarts)
    {
      if state.status == Racing || state.status == Countdown {
        return;
      }
      state := state.(status := Countdown);
      var count := CountdownStart;
      state := state.(countdown := Some(count));
      Broadcast(RoomUpdate, RoomSnapshot(state));
      countdownTimers := countdownTimers + [count];
    }

    /** Countdown interval `k` fires at `now`: decrement its count; above zero, show
        the new count and broadcast; at zero, stop that interval and start the race. */
    method CountdownTick(k: nat, now: int)
      requires Valid() && k < |countdownTimers|
      modifies this
      ensures Valid()
      ensures old(countdownTimers[k]) > 1 ==>
        && state == old(state).(countdown := Some(old(countdownTimers[k]) - 1))
        && countdownTimers == old(countdownTimers)[k := old(countdownTimers[k]) - 1]
        && broadcasts == old(broadcasts) + [Message(RoomUpdate, RoomSnapshot(state))]
        && deliveries == old(deliveries) + Fanout(RoomUpdate, RoomSnapshot(state))
        && botIntervalActive == old(botIntervalActive)
      ensures old(countdownTimers[k]) == 1 ==>
        && state == old(state).(status := Racing, startTime := Some(now), countdown := None)
        && countdownTimers == old(countdownTimers)[..k] + old(countdownTimers)[k + 1..]
        && broadcasts == old(broadcasts) + [Message(RaceStart, RaceStartPayload(now)), Message(RoomUpdate, RoomSnapshot(state))]
        && deliveries == old(deliveries) + Fanout(RaceStart, RaceStartPayload(now)) + Fanout(RoomUpdate, RoomSnapshot(state))
        && botIntervalActive
      ensures listeners == old(listeners) && botJoinPending == old(botJoinPending)
      ensures pendingCountdownStarts == old(pendingCountdownStarts)
    {
      var count := countdownTimers[k] - 1;
      if count > 0 {
        countdownTimers := countdownTimers[k := count];
        state := state.(countdown := Some(count));
        Broadcast(RoomUpdate, RoomSnapshot(state));
      } else {
        countdownTimers := countdownTimers[..k] + countdownTimers[k + 1..];
        StartRace(now);
      }
    }

    /** startRace: race from `now`, drop the countdown, announce the start and the
        room, and (re)start the one bot interval. */
    method StartRace(now: int)
      requires Valid()
      modifies this
      ensures Valid()
      ensures state == old(state).(status := Racing, startTime := Some(now), countdown := None)
      ensures broadcasts == old(broadcasts) + [Message(RaceStart, RaceStartPayload(now)), Message(RoomUpdate, RoomSnapshot(state))]
      ensures deliveries == old(deliveries) + Fanout(RaceStart, RaceStartPayload(now)) + Fanout(RoomUpdate, RoomSnapshot(state))
      ensures botIntervalActive
      ensures listeners == old(listeners) && botJoinPending == old(botJoinPending)
      ensures countdownTimers == old(countdownTimers) && pendingCountdownStarts == old(pendingCountdownStarts)
    {
      state := state.(status := Racing, startTime := Some(now), countdown := None);
      Broadcast(RaceStart, RaceStartPayload(now));
      Broadcast(RoomUpdate, RoomSnapshot(state));
      // clearInterval then a new setInterval: one bot interval runs either way
      botIntervalActive := true;
    }

    /** checkWinCondition: once finished, nothing; otherwise finish as soon as some
        player has reached 100, stopping the bot interval and broadcasting. */
    method CheckWinCondition()
      requires Valid()
      modifies this
      ensures Valid()
      ensures state == WinCheck(old(state))
      ensures state.status == old(state.status) ==>
        broadcasts == old(broadcasts) && deliveries == old(deliveries) && botIntervalActive == old(botIntervalActive)
      ensures state.status != old(state.status) ==>
        && broadcasts == old(broadcasts) + [Message(RoomUpdate, RoomSnapshot(state))]
        && deliveries == old(deliveries) + Fanout(RoomUpdate, RoomSnapshot(state))
        && !botIntervalActive
      ensures listeners == old(listeners) && botJoinPending == old(botJoinPending)
      ensures countdownTimers == old(countdownTimers) && pendingCountdownStarts == old(pendingCountdownStarts)
    {
      if state.status == Finished {
        return;
      }
      var finished := AnyFinished(state.players);
      if finished {
        state := state.(status := Finished);
        botIntervalActive := false;
        Broadcast(RoomUpdate, RoomSnapshot(state));
      }
    }

    /** The bot interval fires; `variance` is the random draw in [-5, 5). */
    method BotTick(variance: real)
      requires Valid() && botIntervalActive && -5.0 <= variance < 5.0
      modifies this
      ensures Valid()
      ensures old(state.status) != Racing || !HasBot(old(state.players)) ==>
        state == old(state) && broadcasts == old(broadcasts) && deliveries == old(deliveries) && botIntervalActive
      ensures old(state.status) == Racing && HasBot(old(state.players)) ==>
        var k := FindBot(old(state.players)).value;
        && state == WinCheck(old(state).(players := old(state.players)[k := BotAdvance(old(state.players)[k], variance, |old(state.text)|)]))
        && broadcasts == old(broadcasts) + (if state.status == Finished then [Message(RoomUpdate, RoomSnapshot(state))] else [])
                                         + [Message(RoomUpdate, RoomSnapshot(state))]
        && deliveries == old(deliveries) + (if state.status == Finished then Fanout(RoomUpdate, RoomSnapshot(state)) else [])
                                         + Fanout(RoomUpdate, RoomSnapshot(state))
        && botIntervalActive == (state.status != Finished)
      ensures listeners == old(listeners) && botJoinPending == old(botJoinPending)
      ensures countdownTimers == old(countdownTimers) && pendingCountdownStarts == old(pendingCountdownStarts)
    {
      UpdateBotProgress(variance);
    }

    /** updateBotProgress. */
    method UpdateBotProgress(variance: real)
      requires Valid() && -5.0 <= variance < 5.0
      modifies this
      ensures Valid()
      ensures old(state.status) != Racing || !HasBot(old(state.players)) ==>
        state == old(state) && broadcasts == old(broadcasts) && deliveries == old(deliveries)
        && botIntervalActive == old(botIntervalActive)
      ensures old(state.status) == Racing && HasBot(old(state.players)) ==>
        var k := FindBot(old(state.players)).value;
        && state == WinCheck(old(state).(players := old(state.players)[k := BotAdvance(old(state.players)[k], variance, |old(state.text)|)]))
        && broadcasts == old(broadcasts) + (if state.status == Finished then [Message(RoomUpdate, RoomSnapshot(state))] else [])
                                         + [Message(RoomUpdate, RoomSnapshot(state))]
        && deliveries == old(deliveries) + (if state.status == Finished then Fanout(RoomUpdate, RoomSnapshot(state)) else [])
                                         + Fanout(RoomUpdate, RoomSnapshot(state))
        && botIntervalActive == (state.status != Finished && old(botIntervalActive))
      ensures listeners == old(listeners) && botJoinPending == old(botJoinPending)
      ensures countdownTimers == old(countdownTimers) && pendingCountdownStarts == old(pendingCountdownStarts)
    {
      if state.status != Racing {
        return;
      }
      var found := FindBot(state.players);
      if found.Some? {
        var k := found.value;
        var bot := BotAdvance(state.players[k], variance, |state.text|);
        state := state.(players := state.players[k := bot]);
        CheckWinCondition();
        Broadcast(RoomUpdate, RoomSnapshot(state));
      }
    }

    /** The `update_progress` case: an unknown id is dropped; a known one takes the
        reported values verbatim, then the win check runs and the room is broadcast
        (so a finishing report broadcasts twice). */
    method UpdateProgress(id: string, progress: real, wpm: real)
      requires Valid()
      modifies this
      ensures Valid()
      ensures !HasId(old(state.players), id) ==>
        state == old(state) && broadcasts == old(broadcasts) && deliveries == old(deliveries)
        && botIntervalActive == old(botIntervalActive)
      ensures HasId(old(state.players), id) ==>
        && state == WinCheck(old(state).(players := Report(old(state.players), id, progress, wpm)))
        && broadcasts == old(broadcasts) + (if state.status != old(state.status) then [Message(RoomUpdate, RoomSnapshot(state))] else [])
                                         + [Message(RoomUpdate, RoomSnapshot(state))]
        && deliveries == old(deliveries) + (if state.status != old(state.status) then Fanout(RoomUpdate, RoomSnapshot(state)) else [])
                                         + Fanout(RoomUpdate, RoomSnapshot(state))
        && botIntervalActive == (old(botIntervalActive) && state.status == old(state.status))
      ensures listeners == old(listeners) && botJoinPending == old(botJoinPending)
      ensures countdownTimers == old(countdownTimers) && pendingCountdownStarts == old(pendingCountdownStarts)
    {
      var found := FindId(state.players, id);
      if found.Some? {
        var k := found.value;
        state := state.(players := state.players[k := state.players[k].(progress := progress, wpm := wpm)]);
        CheckWinCondition();
        Broadcast(RoomUpdate, RoomSnapshot(state));
      }
    }

    /** The `play_again` case: stop the stored timers, go back to waiting with a new
        text and zeroed scores, broadcast, and schedule a startCountdown a second
        later. Live countdown intervals are not touched. */
    method PlayAgain(text: string)
      requires Valid()
      modifies this
      ensures Valid()
      ensures state == old(state).(status := Waiting, text := text, players := ResetScores(old(state.players)))
      ensures !botIntervalActive && !botJoinPending
      ensures broadcasts == old(broadcasts) + [Message(RoomUpdate, RoomSnapshot(state))]
      ensures deliveries == old(deliveries) + Fanout(RoomUpdate, RoomSnapshot(state))
      ensures pendingCountdownStarts == old(pendingCountdownStarts) + 1
      ensures listeners == old(listeners) && countdownTimers == old(countdownTimers)
    {
      botIntervalActive := false;
      botJoinPending := false;
      state := state.(status := Waiting, text := text);
      var players := state.players;
      var i := 0;
      while i < |players|
        invariant 0 <= i <= |players| == |state.players|
        invariant forall j :: 0 <= j < i ==> players[j] == state.players[j].(progress := 0.0, wpm := 0.0)
        invariant forall j :: i <= j < |players| ==> players[j] == state.players[j]
      {
        players := players[i := players[i].(progress := 0.0, wpm := 0.0)];
        i := i + 1;
      }
      state := state.(players := players);
      Broadcast(RoomUpdate, RoomSnapshot(state));
      pendingCountdownStarts := pendingCountdownStarts + 1;
    }

    /** The `leave_room` case: stop the stored timers and reset to a fresh room,
        without a broadcast. Live countdown intervals and the untracked
        startCountdown timeouts survive. */
    method LeaveRoom(roomId: string, text: string)
      requires Valid()
      modifies this
      ensures Valid()
      ensures state == FreshRoom(roomId, text)
      ensures !botIntervalActive && !botJoinPending
      ensures broadcasts == old(broadcasts) && deliveries == old(deliveries)
      ensures listeners == old(listeners) && countdownTimers == old(countdownTimers)
      ensures pendingCountdownStarts == old(pendingCountdownStarts)
    {
      botIntervalActive := false;
      botJoinPending := false;
      ResetState(roomId, text);
    }
  }
}
