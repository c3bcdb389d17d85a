/** Runs of the race coordinator, stepping its timers by hand. They show what the
    step contracts of src/services/socket.ts add up to: the normal round, and two
    consequences of the countdown interval's handle being a local variable. */
module SocketScenarios {
  import opened Types
  import opened Socket

  /** Join (twice), the bot joins, the countdown runs 3, 2, 1, the race starts, and a
      report of 100 for the human finishes the race and stops the bot interval; that
      report is broadcast twice. */
  method OneRound(now: int) returns (started: bool, finalStatus: RaceStatus, botTicking: bool)
    ensures started && finalStatus == Finished && !botTicking
  {
    var service := new MockSocketService("room-1", "go fast");
    service.JoinRoom("Player1");
    service.JoinRoom("Player1");
    assert service.state.players == [NewPlayer("Player1", false)];
    service.BotJoinFires();
    assert service.state.players == [NewPlayer("Player1", false), NewPlayer(BotName, true)];
    service.CountdownStartFires();
    assert service.state.countdown == Some(3) && service.countdownTimers == [3];
    service.CountdownTick(0, now);
    assert service.state.countdown == Some(2);
    service.CountdownTick(0, now);
    assert service.state.countdown == Some(1);
    service.CountdownTick(0, now);
    assert service.broadcasts[|service.broadcasts| - 2] == Message(RaceStart, RaceStartPayload(now));
    started := service.state.status == Racing && service.state.startTime == Some(now) && service.botIntervalActive;
    ghost var sent := |service.broadcasts|;
    service.UpdateProgress(PlayerId, 100.0, 20.0);
    assert service.state.players[0].progress == 100.0;
    assert |service.broadcasts| == sent + 2;
    finalStatus := service.state.status;
    botTicking := service.botIntervalActive;
  }

  /** Leaving during the countdown does not stop the countdown interval: its next tick
      broadcasts in the fresh room and writes a countdown into a waiting room. */
  method CountdownOutlivesLeave(now: int) returns (room: RaceRoomState)
    ensures room.roomId == "room-2" && room.status == Waiting && room.countdown == Some(2)
  {
    var service := new MockSocketService("room-1", "go fast");
    service.JoinRoom("Player1");
    service.BotJoinFires();
    service.CountdownStartFires();
    service.LeaveRoom("room-2", "type on");
    ghost var sent := |service.broadcasts|;
    service.CountdownTick(0, now);
    assert |service.broadcasts| == sent + 1;
    room := service.state;
  }

  /** `play_again` during the final second of a countdown leaves the old countdown
      interval running: its last tick, due before play_again's own one-second
      startCountdown timeout, takes the room from `waiting` straight to `racing`. */
  method RestartSkipsCountdown(now: int) returns (before: RaceStatus, after: RaceStatus, startPending: bool)
    ensures before == Waiting && after == Racing && startPending
  {
    var service := new MockSocketService("room-1", "go fast");
    service.JoinRoom("Player1");
    service.BotJoinFires();
    service.CountdownStartFires();
    service.CountdownTick(0, now);
    service.CountdownTick(0, now);
    service.PlayAgain("type on");
    before := service.state.status;
    service.CountdownTick(0, now);
    after := service.state.status;
    startPending := service.pendingCountdownStarts > 0;
  }
}
