# HaruStep habit tracker — Dafny model

HaruStep is a single-page wellness app: the user asks a language model
for small daily quests, ticks them off to earn XP and levels, logs a
daily mood, runs a focus/break timer and chats with a coach. All the text
comes from the language-model service. This project models the
deterministic state logic around that service. Every answer from the
service is an input value: `Parsed(items)` or `QuestFailure` for the quest
request, `Text(s)` or `TextFailure` for the encouragement and chat calls.

One module per source file:

- `Types` (`types.dfy`): the records and enumerations. `Difficulty` has
  exactly three tiers. A `Quest` holds id, title, description, difficulty,
  completed and xp. `MoodScore` is the subset 1..5. `UserStats` holds the
  five counters.
- `GeminiService` (`gemini_service.dfy`): the tier reward table (10/25/50)
  and the default prompt topics. It also shapes the parsed items into
  quest drafts. Failures fall back to three fixed quests worth 10 each,
  whatever the tier. Encouragement and chat failures become fixed
  sentences, so no call ever reports an error.
- `QuestBoard` (`quest_board.dfy`): the board's state as the class
  `Board`. Generating replaces the list and stamps ids and
  `completed = false`. `Toggle` awards XP only when a quest goes from
  open to done. It asks for an encouragement when the last open quest is
  completed. Reset empties the list.
- `App` (`app.dfy`): the level-up rule `GainXp`. Each call adds at most
  one level. The threshold grows by floor(n × 1.2). `Lifetime` is the XP
  spent on past levels plus the XP held now. The class `AppState` routes
  board rewards into the stats. `Play` composes board actions with the
  stats. The lemma `PlayKeepsStatsValid` proves two things for any mix of
  board actions and service answers. The stats stay reachable. Lifetime
  XP grows by exactly the XP the board awarded.
- `FocusTimer` (`focus_timer.dfy`): the 1500 s focus / 300 s break state
  machine. It has a tick, a toggle, a switch at zero and a reset.
  `FormatTime` is proved to read back through `ParseTime` for every
  number of seconds. The result has exactly five characters when the time
  is under 100 minutes.
- `MoodTracker` (`mood_tracker.dfy`): the mood window. Each log appends
  today's entry and drops the oldest when there are more than seven. A
  guard allows only one log.
- `AICoach` (`ai_coach.dfy`): the chat transcript. The await inside
  `handleSend` splits the send in two. `Send` checks the guard, appends
  the user's message and builds the history. `Receive` appends the reply
  and clears the loading flag. `Valid()` keeps the transcript
  alternating between user and coach. A reply is pending exactly when the
  transcript ends with a user message.

Where the code does something other than what its own prompts and
comments suggest, the model follows the code:

- The prompts ask for 3 tasks (services/geminiService.ts:41, 47, 53), but
  a successful quest request yields one quest per parsed item, however
  many there are.
- The fallback batch is worth 10 per quest at every tier.
- A completed quest can be toggled back to open, as the comment at
  components/QuestBoard.tsx:50-52 leaves open. Completing it again pays its
  XP again (`RecompletionPaysAgain`).
- Reset leaves an existing encouragement on screen.
- `GainXp` accepts any amount and levels up at most once. A gain that reaches
  both the current and the next threshold leaves `currentXp` at or above
  the new threshold (`OneLevelPerGainExamples`).

## Model

| member | source | states |
|---|---|---|
| GeminiService.TierXp | services/geminiService.ts:38-58 | a quest's reward is one of the tier values 10, 25 or 50 |
| GeminiService.TierXpDistinguishesTiers | services/geminiService.ts:38-58 | two tiers share a reward exactly when they are the same tier |
| GeminiService.PromptTopic | services/geminiService.ts:43-55 | the prompt always names a topic: the interest text, or the tier's default topic when that text is empty |
| GeminiService.ShapeQuests | services/geminiService.ts:79-87 | one draft per parsed item, in order, with the item's title and description, the requested tier and that tier's reward |
| GeminiService.FallbackQuests | services/geminiService.ts:89-96 | the fallback is three titled quests at the requested tier, each worth 10 |
| GeminiService.GenerateDailyQuests | services/geminiService.ts:35-98 | every quest has the requested tier; a parsed reply gives one quest per item at the tier reward; a failure gives the three-quest fallback worth 10 each |
| GeminiService.TinyBatchIsWorthTenEach | services/geminiService.ts:38-45 | a TINY batch is worth 10 per quest whether the request succeeds or fails |
| GeminiService.FallbackUnderpaysAboveTiny | services/geminiService.ts:89-96 | above TINY a failed request pays less per quest than the tier's reward |
| GeminiService.GenerateEncouragement | services/geminiService.ts:100-110 | the message is never empty: the reply's text, the default sentence for an empty text, another fixed sentence on failure |
| GeminiService.ChatWithCoach | services/geminiService.ts:17-33 | a reply's text is passed on unchanged; a failure becomes the fixed apology, never an error |
| QuestBoard.WithIds | components/QuestBoard.tsx:22-28 | the batch keeps the drafts and their order, every quest starts open, and no two ids are equal |
| QuestBoard.FindIndex | components/QuestBoard.tsx:37-38 | finds the first quest with the id, or reports that none has it |
| QuestBoard.CountRemaining | components/QuestBoard.tsx:44-45 | the count is zero exactly when every quest other than the toggled id is completed |
| QuestBoard.FlipMatching | components/QuestBoard.tsx:55-57 | same length and order; only quests with the id have their flag flipped |
| QuestBoard.Toggle | components/QuestBoard.tsx:36-58 | the list keeps every quest's id, content and position; unique ids and tier rewards are preserved; any award is the xp of a quest with that id; an encouragement request passes the batch length and comes with an award |
| QuestBoard.ToggleUnknownIdIsNoOp | components/QuestBoard.tsx:37-38 | an id that is not on the board changes nothing and awards nothing |
| QuestBoard.ToggleAt | components/QuestBoard.tsx:36-58 | only the toggled quest's flag flips; XP is awarded exactly when it was open; encouragement is requested exactly when it was the last open quest, i.e. exactly when all are done afterwards |
| QuestBoard.ToggleTwiceRestores | components/QuestBoard.tsx:55-57 | toggling the same id twice gives back the original list |
| QuestBoard.RecompletionPaysAgain | components/QuestBoard.tsx:40-57 | complete, reopen, complete awards the quest's XP twice and takes nothing back |
| QuestBoard.Board.constructor | components/QuestBoard.tsx:12-16 | an empty board, not loading, no interest, TINY selected, no encouragement |
| QuestBoard.Board.SelectDifficulty | components/QuestBoard.tsx:91 | the chosen tier is selected |
| QuestBoard.Board.SetInterest | components/QuestBoard.tsx:110 | the typed interest is stored |
| QuestBoard.Board.Generate | components/QuestBoard.tsx:18-34 | clears the encouragement and replaces the whole list with the stamped service batch; ids stay unique; loading ends false |
| QuestBoard.Board.ToggleQuest | components/QuestBoard.tsx:36-58 | the new list and the returned XP are those of Toggle; the encouragement changes only when Toggle requests one |
| QuestBoard.Board.Reset | components/QuestBoard.tsx:141 | the list is emptied and the encouragement is left as it was |
| App.GrowThreshold | App.tsx:29 | the grown threshold is at least the old one and at most twice it |
| App.GainXp | App.tsx:20-34 | at most one level per call, gained exactly when the sum reaches the threshold; the surplus is carried over; the threshold never shrinks; streak and focus minutes are untouched |
| App.InitialStatsAreValid | App.tsx:12-18 | level 1 with 0 of 100 XP is a reachable state |
| App.ThresholdAtLeast100 | App.tsx:15-29 | no level's threshold is below the first one, 100 |
| App.ThresholdMonotone | App.tsx:29 | thresholds never decrease with the level |
| App.FirstThresholds | App.tsx:15-29 | the thresholds run 100, 120, 144, 172 |
| App.GainKeepsXpBelowThreshold | App.tsx:22-32 | an amount no larger than the threshold keeps the XP between 0 and the threshold |
| App.GainConservesLifetimeXp | App.tsx:22-32 | a gain raises lifetime XP by exactly the amount, and the threshold is the new level's |
| App.QuestRewardKeepsStatsValid | App.tsx:22-32 | a quest-sized reward (at most 50) keeps the stats reachable |
| App.OneLevelPerGainExamples | App.tsx:24-31 | from the initial stats +100 gives (2, 0, 120), +150 gives (2, 50, 120), +300 gives (2, 200, 120), which is over its threshold |
| App.MainPanels | App.tsx:113-150 | only STATS shows nothing; the quest board is shown exactly on DASHBOARD and QUESTS |
| App.AppState.constructor | App.tsx:12-18 | the initial stats |
| App.AppState.HandleXpGain | App.tsx:20-34 | the stats become GainXp of the old stats |
| App.AppState.ToggleOnBoard | App.tsx:117 | a board toggle changes the quest list as Toggle does, shows the encouragement exactly when the last open quest was completed, leaves the board's other fields alone, feeds the award into the stats, and keeps reachable stats reachable |
| App.PlayKeepsStatsValid | App.tsx:20-34 | any sequence of board actions and service answers keeps the stats reachable, and lifetime XP grows by exactly the XP awarded |
| App.FreshSessionStaysValid | App.tsx:12-34 | from the initial stats and an empty board, lifetime XP equals the XP the board awarded |
| App.BalancedSessionStaysBalanced | App.tsx:20-34 | once lifetime XP equals the XP awarded, any further board actions keep it so, and keep the stats reachable |
| FocusTimer.Tick | components/FocusTimer.tsx:14-27 | keeps the time within the session's length; the session switches exactly at zero, paused and full; otherwise a running timer loses one second and a paused one none |
| FocusTimer.ToggleTimer | components/FocusTimer.tsx:35 | flips whether the timer runs and nothing else |
| FocusTimer.CountsDown | components/FocusTimer.tsx:14-16 | a running timer is k seconds lower after k ticks |
| FocusTimer.SessionEndsAfterItsLength | components/FocusTimer.tsx:14-27 | a running session ends, paused at the start of the other session, one step after its time runs out |
| FocusTimer.FocusSessionLeadsToBreak | components/FocusTimer.tsx:4-27 | the started 25-minute session becomes a paused 5-minute break after 1501 steps |
| FocusTimer.Timer.constructor | components/FocusTimer.tsx:7-9 | 1500 s, paused, focus |
| FocusTimer.Timer.Step | components/FocusTimer.tsx:11-28 | the new state is Tick of the old, within bounds |
| FocusTimer.Timer.Toggle | components/FocusTimer.tsx:35 | the new state is ToggleTimer of the old |
| FocusTimer.Timer.Reset | components/FocusTimer.tsx:37-41 | from any state: paused, focus, 1500 s |
| FocusTimer.NatToString | components/FocusTimer.tsx:46 | a non-empty digit string with no leading zero except for 0 itself, one digit exactly below 10 and two exactly from 10 to 99 |
| FocusTimer.DecimalValueOfNatToString | components/FocusTimer.tsx:46 | the decimal string reads back as the number |
| FocusTimer.PadStart2 | components/FocusTimer.tsx:46 | at least two characters, ending with the original string |
| FocusTimer.FormatTime | components/FocusTimer.tsx:43-47 | the display is at least two digits of minutes, a colon, and exactly two digits of seconds |
| FocusTimer.ClockShape | components/FocusTimer.tsx:44-46 | padded minutes and padded seconds below 60 joined by a colon have that shape |
| FocusTimer.PadStart2KeepsValue | components/FocusTimer.tsx:46 | padding with zeros keeps a digit string's value |
| FocusTimer.ClockRoundTrip | components/FocusTimer.tsx:43-47 | m minutes and r < 60 seconds read back as m * 60 + r, five characters exactly when m < 100 |
| FocusTimer.FormatTimeRoundTrip | components/FocusTimer.tsx:43-47 | every displayed time reads back as its seconds; it is "MM:SS" exactly when under 6000 s |
| FocusTimer.FocusSessionDisplay | components/FocusTimer.tsx:43-47 | 1500 s shows as "25:00" |
| FocusTimer.BreakDisplay | components/FocusTimer.tsx:43-47 | 300 s shows as "05:00" |
| MoodTracker.InitialData | components/MoodTracker.tsx:7-14 | the preset window holds six days |
| MoodTracker.Logged | components/MoodTracker.tsx:22-25 | today's entry comes last, after the old data minus at most its first entry; a window of at most seven stays so |
| MoodTracker.LoggedKeepsLastWeek | components/MoodTracker.tsx:22-25 | from at most seven days, the result is the last seven of the old data plus today's entry |
| MoodTracker.OnlyFirstClickCounts | components/MoodTracker.tsx:21-26 | of any run of clicks only the first is logged |
| MoodTracker.ClicksStayWithinWeek | components/MoodTracker.tsx:7-27 | from the preset data the window never exceeds seven days |
| MoodTracker.Tracker.constructor | components/MoodTracker.tsx:17-18 | the preset data, not yet logged |
| MoodTracker.Tracker.HandleLog | components/MoodTracker.tsx:20-27 | a second log changes nothing; a first log applies Logged and sets the guard |
| AICoach.History | components/AICoach.tsx:43-46 | one history entry per message, same role, the text as the single part |
| AICoach.HistoryAppends | components/AICoach.tsx:43-46 | the history of a longer transcript extends the history of the shorter one: entries already sent never change |
| AICoach.LeadingBlanks | components/AICoach.tsx:28 | the leading white space `trim` removes: all of it white space, and the character after it is not |
| AICoach.TrailingBlanks | components/AICoach.tsx:28 | the trailing white space `trim` removes: all of it white space, and the character before it is not |
| AICoach.Trim | components/AICoach.tsx:28 | `input.trim()`: a slice between white-space prefix and suffix that neither starts nor ends with white space (the ECMAScript white-space and line-terminator characters), empty exactly when the input is all white space |
| AICoach.Coach.constructor | components/AICoach.tsx:7-16 | the transcript is the coach's greeting alone; empty input; not loading |
| AICoach.Coach.SetInput | components/AICoach.tsx:125 | the typed text is stored |
| AICoach.Coach.Send | components/AICoach.tsx:27-46 | blank input or a pending reply changes nothing; otherwise the user message is appended, the input cleared, loading set, and the request carries the text and the history before it |
| AICoach.Coach.Receive | components/AICoach.tsx:48-61 | the reply, or the apology, is appended as a coach message and loading is cleared |

## Left out

- Rendering, styling, icons, the navigation buttons and the mobile menu
  are not modelled. `currentView` and `isMobileMenuOpen` are not state
  of the model.
- Switching views remounts the components and resets their state. This
  is not modelled.
- The language-model SDK calls, the prompt wording and `JSON.parse` are
  not modelled. Their outcomes are the reply parameters. Parsed items are
  taken to carry string titles and descriptions. Other replies are not
  modelled: an item missing a field gives a quest whose field is
  `undefined`; a field of another type is copied as it is
  (services/geminiService.ts:83-84); and a `null` item makes `q.title`
  throw, so the whole request falls back to the fixed quests.
- `chatWithCoach` returns `result.text`, which the SDK may leave
  undefined. The model takes the reply text to be a string.
- Timer scheduling through `setInterval`, `clearInterval` and `useEffect`
  is not modelled. `Timer.Step` is one run of the effect.
- Interleavings across `await` are not modelled. `Board.Generate` and
  `Board.ToggleQuest` are single steps, so `loading` is false between
  them. The coach's send is split at its one await.
- The `catch` branches of `handleGenerate` and `handleSend` are not
  modelled. The service functions they await never throw.
- Floating-point progress bars, the chart, the hard-coded "0" session
  statistics and `console.error` logging are not modelled.
- App.GrowThreshold: computes floor(n × 1.2) as the integer (n × 6) / 5.
  Agreement with the floating-point product is not proved.
- JavaScript numbers are modelled as unbounded integers. Precision loss
  above 2^53 is not modelled.
- Time stamps from `Date.now()` and `new Date()` are not modelled. A
  quest id is `(stamp, index)`. Chat ids are arbitrary strings.
  Timestamps are dropped.
- The optional `note` of a mood log is never set, so it is not modelled.
