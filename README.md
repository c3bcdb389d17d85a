# FingerFrenzy typing core, modelled in Dafny

FingerFrenzy is a browser typing trainer. It has:

- a solo test that scores every keystroke;
- a history dashboard that summarises saved results;
- a "race" against a simulated opponent.

The race has no real server. A mock socket service (`src/services/socket.ts`) keeps the room in memory and drives everything with timers:

- It admits the human player and, 1.5 s later, a bot.
- It counts down 3, 2, 1 and starts the race.
- It moves the bot forward once a second.
- It declares the race finished once someone reaches 100 %.
- It broadcasts the room to every registered listener.

The project models these modules:

- `Types`: the records shared by all modules (`Stats`, `TestResult`, `RacePlayer`, `RaceRoomState`).
- `Logic` (`src/utils/logic.ts`):
  - the WPM, raw WPM and accuracy formulas, with JavaScript's `Math.round` written out as rounding half up;
  - the random text generator, as a loop over word indices supplied by the caller.
- `Typing` (`src/components/TypingArea.tsx`): the component as a class holding its props and its three state hooks. Its methods are:
  - the reset that runs when the text changes;
  - `handleInput`: the start-time latch, the correct-character loop, stats, and completion;
  - `renderText`, as a classification of every text position.
- `RaceRoom` (`src/components/RaceRoom.tsx`):
  - the progress report the client sends;
  - the leaderboard sort;
  - the victory banner;
  - the FINISHED/DNF label.
- `Dashboard` (`src/components/Dashboard.tsx`):
  - average WPM and best WPM;
  - the five most recent results, newest first.
- `Socket` (`src/services/socket.ts`): the service as a class. Pending timers are explicit fields:
  - the stored bot-join timeout and bot interval are flags;
  - every live countdown interval is an entry of `countdownTimers`;
  - the untracked one-second timeouts that call `startCountdown` are a counter.

  Each timer callback is a method of its own. Ghost logs record every broadcast, and every listener invocation it causes in registration order.
- `SocketScenarios`: short runs of the service that show what the step contracts add up to.

Where the code and its documented intent disagree, the model follows the code:

- **Countdown value while waiting.** A fresh room carries `countdown: 3` while still `waiting`.
- **Leaving does not stop the countdown.** The handle of a countdown interval is a local variable, so `leave_room` and `play_again` never stop it. After a leave, the old interval keeps broadcasting into the fresh room (`SocketScenarios.CountdownOutlivesLeave`).
- **Play again can skip the countdown.** When `play_again` arrives during the final second of a countdown, the old interval's last tick comes before the new one-second start. It takes the `waiting` room straight to `racing` (`SocketScenarios.RestartSkipsCountdown`).
- **Double broadcast on finish.** A progress report that finishes the race is broadcast twice: once by the win check, and once after it (`Socket.MockSocketService.UpdateProgress`).
- **Human reports are not checked.** The server stores a human's reported progress verbatim: it is neither clamped nor required to be monotone. Only the bot's progress is capped at 100 (`Socket.Report`, `Socket.BotAdvance`).

## Model

| member | source | states |
|---|---|---|
| Logic.Round | src/utils/logic.ts:33-38 | `Math.round` on the finite values used here: the result lies in (x-0.5, x+0.5], so halves round up |
| Logic.Max | src/utils/logic.ts:33 | `Math.max`: at least both arguments, and equal to one of them |
| Logic.MinReal | src/components/RaceRoom.tsx:31 | `Math.min`: at most both arguments, and equal to one of them |
| Logic.CalculateStats | src/utils/logic.ts:2-40 | Without a start time, the stats are the zero record with accuracy 100. Otherwise, correct characters pass through and errors are typed minus correct. WPM is never negative. Accuracy is 100 when nothing was typed, and otherwise the rounded correct/typed percentage, which lies in 0..100 |
| Logic.AccuracyBounds | src/utils/logic.ts:30-35 | When 0 <= correct <= typed and typed > 0, the rounded accuracy lies between 0 and 100 |
| Logic.RatesClosedForm | src/utils/logic.ts:18-38 | With elapsed time t ms: raw WPM = round(12000·typed/t), WPM = max(0, round((60000·correct − 48000·typed)/t)), and seconds = round(t/1000). That is, gross = (typed/5)/minutes and net = gross − errors/minutes |
| Logic.NetAtMostGross | src/utils/logic.ts:22-33 | When correct <= typed, net WPM never exceeds max(0, raw WPM) |
| Logic.OneMinuteExamples | src/utils/logic.ts:2-40 | One minute with 100/100 correct gives 20 WPM, 20 raw and 100 % accuracy. One minute with 80/100 gives 0 WPM, 20 raw, 80 % accuracy and 20 errors |
| Logic.Join | src/utils/logic.ts:48 | `join(' ')`: no words give the empty text, the first word starts the text, and every non-space character of the text comes from one of the words |
| Logic.SplitJoin | src/utils/logic.ts:48 | Joining at least one space-free word with single spaces and splitting on spaces gives the words back |
| Logic.Picked | src/utils/logic.ts:44-47 | One selected word per index draw, each taken from the word list |
| Logic.GenerateText | src/utils/logic.ts:42-49 | The text is the picked words joined by spaces. Zero words give the empty text. With a space-free list, the text splits back into exactly the picked words |
| Typing.CountCorrect | src/components/TypingArea.tsx:51-56 | The count is the number of input positions whose character equals the text's character at that position. It is at most the input length and at most the text length |
| Typing.Latch | src/components/TypingArea.tsx:40-46 | A truthy start time is kept. Otherwise the keystroke's instant becomes the start, which is truthy whenever that instant is not 0 |
| Typing.FirstKeystrokeStarts | src/components/TypingArea.tsx:40-46 | Starting from no start time, the start is the instant of the first keystroke, and no later keystroke moves it |
| Typing.Classify | src/components/TypingArea.tsx:80-102 | A text position is the cursor iff it equals the input length. It is untyped iff it is past the input. It is correct or incorrect iff it is typed and the characters agree or differ |
| Typing.Render | src/components/TypingArea.tsx:74-111 | One class per text character, each given by the classification above |
| Typing.RenderHasOneCursor | src/components/TypingArea.tsx:80-89 | A cursor is shown iff the input is shorter than the text, and it is shown at one position only |
| Typing.RenderAgreesWithCount | src/components/TypingArea.tsx:51-56 | The positions shown as correct are exactly the positions the scoring loop counts |
| Typing.TypingArea.constructor | src/components/TypingArea.tsx:13-16 | Mounting keeps the props and starts with empty input, no start time and zero correct characters |
| Typing.TypingArea.ReceiveProps | src/components/TypingArea.tsx:27-32 | A changed text resets the input, start time and count. An unchanged text keeps them |
| Typing.TypingArea.HandleInput | src/components/TypingArea.tsx:34-66 | When inactive, nothing changes and nothing is reported. When active: the input is stored, the start time is latched, and the count equals the number of matching positions. The reported stats are calculateStats of that count, the input length and the latched start. Completion holds iff the input is at least as long as the text |
| RaceRoom.ProgressReport | src/components/RaceRoom.tsx:27-38 | Nothing is sent iff there is no room or its text is empty. Otherwise the message carries the local id and the WPM, with progress at most 100, non-negative for a non-negative count, and equal to 100 iff the correct count reaches the text length. Below that, progress · length = correct · 100, so progress is the correct share of the text as a percentage |
| RaceRoom.Insert | src/components/RaceRoom.tsx:47-52 | Inserting into a ranked list keeps it ranked and adds exactly that player |
| RaceRoom.SortPlayers | src/components/RaceRoom.tsx:47-52 | The leaderboard is ordered by progress, then WPM, both descending, and is a permutation of the room's players |
| RaceRoom.Winner | src/components/RaceRoom.tsx:141-142 | The leaderboard's head is a player of the room who is ahead of or level with every player |
| RaceRoom.IsVictory | src/components/RaceRoom.tsx:141-142 | The victory banner is shown only when the local player is in the room |
| RaceRoom.VictoryMeansLeading | src/components/RaceRoom.tsx:141-142 | A victory banner means the local player is ahead of or level with everyone. Being strictly ahead of everyone else guarantees the victory banner |
| RaceRoom.StandingOf | src/components/RaceRoom.tsx:163-167 | FINISHED iff the player's progress has reached 100, DNF otherwise |
| RaceRoom.WinnerFinished | src/components/RaceRoom.tsx:156-167 | When some player has reached 100, the leaderboard's head is labelled FINISHED |
| Dashboard.SumWpm | src/components/Dashboard.tsx:15 | The `reduce` from 0: an empty history sums to 0 |
| Dashboard.SumWpmConcat | src/components/Dashboard.tsx:15 | The total over two stretches of history is the sum of their totals |
| Dashboard.AvgWpm | src/components/Dashboard.tsx:14-16 | An empty history gives 0. Otherwise the result is the mean rounded: (avg−½)·n <= sum < (avg+½)·n |
| Dashboard.MaxWpm | src/components/Dashboard.tsx:18-20 | An empty history gives 0. Otherwise the result is at least every result's WPM and equals one of them |
| Dashboard.AvgAtMostBest | src/components/Dashboard.tsx:14-20 | On a non-empty history the average card never exceeds the best card |
| Dashboard.Recent | src/components/Dashboard.tsx:52 | Holds min(5, n) entries, entry k being the k-th newest result |
| Dashboard.Summarize | src/components/Dashboard.tsx:14-27 | Tests taken is the history length. The average, best and recent cards are AvgWpm, MaxWpm and Recent of the history. An empty history shows zeros and no rows. The average is at most the best. The first row is the latest result |
| Socket.AtMostOneBot | src/services/socket.ts:119-130 | A roster that addPlayer builds holds at most one bot |
| Socket.Admit | src/services/socket.ts:119-141 | A second bot and a taken id are refused. Otherwise exactly one new player is appended with the right id, colour and zero scores. Existing players are untouched, and a well-formed roster stays well formed |
| Socket.AdmitTwice | src/services/socket.ts:119-141 | Admitting the same role twice changes nothing the second time, so repeated joins never duplicate a player |
| Socket.FindId | src/services/socket.ts:84 | `find` by id: none iff no player has the id, otherwise the first such player |
| Socket.FindBot | src/services/socket.ts:182 | `find` of the bot: none iff there is no bot, otherwise the first bot |
| Socket.Report | src/services/socket.ts:83-87 | Only the player with that id changes: it takes the reported progress and WPM verbatim and keeps its id, name, bot flag and colour. An unknown id changes nothing, and well-formedness is kept |
| Socket.BotWpm | src/services/socket.ts:186 | `Math.max(10, 60 + variance)`: at least 10 and at least 60 + variance, and equal to one of them |
| Socket.BotAdvance | src/services/socket.ts:183-193 | For a variance in [-5, 5), the bot's WPM is BotWpm(variance) = 60 + variance, which lies in [55, 65). The new progress is min(100, old progress + (wpm/12)·100/len), where len is the text length, or 150 for an empty text: the characters typed in one second as a share of the text. Progress never exceeds 100, never decreases from a value <= 100, and strictly grows below 100. Nothing but progress and WPM changes |
| Socket.ResetScores | src/services/socket.ts:99-102 | Every player is kept, with progress and WPM zeroed |
| Socket.FreshRoom | src/services/socket.ts:27-34 | The new room has the given id and text, no start time, no players and is waiting with countdown 3. Its empty roster is well formed and nobody has finished |
| Socket.WinCheck | src/services/socket.ts:200-209 | A finished room is left alone. The status becomes finished iff it already was or some player has reached 100. Nothing but the status changes |
| Socket.WinCheckIdempotent | src/services/socket.ts:200-209 | A second win check changes nothing |
| Socket.Without | src/services/socket.ts:48 | The filtered list no longer holds the callback and keeps every other callback with its multiplicity |
| Socket.WithoutConcat | src/services/socket.ts:48 | Filtering works element by element, so the order of the survivors is kept |
| Socket.OffUndoesOn | src/services/socket.ts:39-49 | `off` after `on` of a callback not yet registered restores the list |
| Socket.DeliveriesTo | src/services/socket.ts:211-215 | A broadcast invokes every listener once, in registration order, with the payload |
| Socket.MockSocketService.constructor | src/services/socket.ts:20-35 | The service starts with a fresh waiting room with countdown 3, no listeners, no timers and no broadcasts |
| Socket.MockSocketService.ResetState | src/services/socket.ts:24-35 | The stored timers stop and a fresh room is installed. Listeners and live countdown intervals are untouched |
| Socket.MockSocketService.On | src/services/socket.ts:39-44 | The callback is appended to the event's list, which is created if missing |
| Socket.MockSocketService.Off | src/services/socket.ts:46-49 | An unknown event is ignored. Otherwise the event's list is filtered |
| Socket.MockSocketService.Broadcast | src/services/socket.ts:211-215 | One message is logged, and each current listener of the event is invoked in order |
| Socket.MockSocketService.AddPlayer | src/services/socket.ts:119-141 | The roster becomes the admitted roster, and nothing else in the room changes |
| Socket.MockSocketService.JoinRoom | src/services/socket.ts:62-81 | The human is admitted and the room is broadcast. The bot-join timeout is armed exactly when the human is alone with no bot. The roster stays well formed |
| Socket.MockSocketService.BotJoinFires | src/services/socket.ts:71-79 | The bot is admitted, the room is broadcast, and one more untracked countdown start is pending |
| Socket.MockSocketService.CountdownStartFires | src/services/socket.ts:76-78 | One pending start is consumed and startCountdown runs: ignored while counting down or racing, otherwise countdown at 3, one broadcast with its listener invocations, and one more live interval |
| Socket.MockSocketService.StartCountdown | src/services/socket.ts:143-163 | Ignored while counting down or racing. Otherwise the status becomes countdown at 3, the room is broadcast, and one more countdown interval is live |
| Socket.MockSocketService.CountdownTick | src/services/socket.ts:153-162 | The interval's count drops by one. Above zero, the room shows it and is broadcast to every listener. At zero, the interval stops and the race starts, with race_start and the room delivered to their listeners |
| Socket.MockSocketService.StartRace | src/services/socket.ts:165-177 | The status is racing from `now` and the countdown is gone. race_start and then the room are broadcast, and the bot interval runs |
| Socket.MockSocketService.CheckWinCondition | src/services/socket.ts:200-209 | The room becomes WinCheck of the old room. A change to finished stops the bot interval and broadcasts once. No change means no broadcast |
| Socket.MockSocketService.UpdateBotProgress | src/services/socket.ts:179-198 | Outside a race, or without a bot, nothing changes. Otherwise the first bot advances, the win check runs, and the room is broadcast and delivered to every listener (twice when the race finishes) |
| Socket.MockSocketService.BotTick | src/services/socket.ts:174-176 | A tick of the live bot interval performs updateBotProgress. The interval stays live until the race finishes |
| Socket.MockSocketService.UpdateProgress | src/services/socket.ts:83-91 | An unknown id is dropped. A known id takes the reported values, then the win check runs and the room is broadcast and delivered to every listener (twice when this finishes the race) |
| Socket.MockSocketService.PlayAgain | src/services/socket.ts:93-109 | The stored timers stop. The room goes back to waiting with the new text and zeroed scores, the room is broadcast, and one untracked countdown start is pending. Live countdown intervals are kept |
| Socket.MockSocketService.LeaveRoom | src/services/socket.ts:111-115 | The stored timers stop and the room is reset without a broadcast. Live countdown intervals and pending starts survive |
| SocketScenarios.OneRound | src/services/socket.ts:62-209 | Two joins, the bot's join, three countdown ticks and a report of 100 give a race that started, finished, and stopped its bot interval |
| SocketScenarios.CountdownOutlivesLeave | src/services/socket.ts:111-163 | A countdown interval live at leave_room still writes `countdown: 2` into the fresh waiting room |
| SocketScenarios.RestartSkipsCountdown | src/services/socket.ts:93-177 | With play_again in the final second of a countdown, the old interval's last tick takes the waiting room straight to racing while play_again's own start is still pending |

## Left out

- Rendering: JSX, CSS classes, focus handling, animations and the `isMultiplayer` branches of the latch. Both latch branches do the same thing.
- `localStorage` and `JSON.parse` in the dashboard: the history is a parameter. The saved records' `id`, `date` and `mode` are carried but not used.
- Real timers and the 50 ms delay of `emit`: every timer callback is a method that a caller fires explicitly, and `emit` is the same as calling the server case directly.
- Timer order: which pending timer fires next is left to the caller.
- Clocks and randomness:
  - `Date.now()` is a parameter.
  - `Math.random()` is a parameter: the bot's variance in [-5, 5), the word indices of `generateText`, and the room id. `resetState`'s `generateText(30, WORD_LIST)` text is also a parameter.
- `WORD_LIST` in `src/constants` is not part of this model.
- Listener callbacks are recorded as deliveries, not run. The model does not capture that listeners receive the live state object (aliasing); snapshots are values.
- Strings are sequences of characters: lengths and indices in `handleInput`, `renderText`, the progress report and the bot's text length count characters, not UTF-16 code units. A typed character outside the Basic Multilingual Plane counts once here and twice in the browser, which changes the typed total, the error count and the completion test.
- IEEE-754 numbers are modelled as exact reals and unbounded integers, so NaN and Infinity are not modelled.
- `Logic.CalculateStats`: requires the clock to be strictly after a truthy start time. At zero elapsed time the source divides by zero and reports Infinity or NaN.
- `Typing.TypingArea.HandleInput`: takes the latch instant and calculateStats' clock reading separately, and requires the latter to be later. On the very first keystroke the source reads the clock three times: for the latch, for `startTime || Date.now()`, and inside calculateStats. The model merges the first two into the one instant `now`. The last reading can fall in the same millisecond, which gives the zero-time case above.
- `Logic.GenerateText`: requires every drawn index to be within the word list. With an empty list the source would join `undefined` entries.
- `RaceRoom.SortPlayers`: does not state stability. The comparator on NaN values is not modelled.
- The `onComplete` and `onStatsUpdate` callbacks are outputs of `HandleInput` rather than calls.
- `App.tsx`: navigation, solo-test timing and saving results are not part of this model.
