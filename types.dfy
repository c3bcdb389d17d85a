/** The shared record shapes of the typing trainer: the statistics a typing
    session produces, the saved test results, and the race room a coordinator
    owns (finger-frenzy/src/types.ts). */
module Types {

  datatype Option<+T> = None | Some(value: T)

  /** Performance figures of one typing session; every field is an integer
      because each is produced by a rounding step or is a keystroke count. */
  datatype Stats = Stats(
    wpm: int,
    rawWpm: int,
    accuracy: int,
    correctChars: int,
    incorrectChars: int,
    timeElapsed: int)  // seconds

  datatype GameMode = Time | Words

  /** A saved solo result: the stats of the finished session plus its metadata. */
  datatype TestResult = TestResult(stats: Stats, id: string, date: string, mode: GameMode)

  /** One race participant. `progress` is a percentage and `wpm` the last reported
      speed; both are arbitrary reals because the coordinator stores what it is told. */
  datatype RacePlayer = RacePlayer(
    id: string,
    username: string,
    progress: real,
    wpm: real,
    isBot: bool,
    color: string)

  datatype RaceStatus = Waiting | Countdown | Racing | Finished

  /** The room record; `countdown == None` is the absent optional field. */
  datatype RaceRoomState = RaceRoomState(
    roomId: string,
    status: RaceStatus,
    players: seq<RacePlayer>,
    text: string,
    startTime: Option<int>,
    countdown: Option<int>)

  /** The two fixed identities the coordinator hands out. */
  const PlayerId: string := "player-id"
  const BotId: string := "bot-id"
}
