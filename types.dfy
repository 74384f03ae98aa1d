/**
 * The shared records and enumerations of the habit tracker (types.ts).
 * Every interface becomes a datatype; the `Date` timestamp of a chat
 * message and the optional, never-set `note` of a mood log carry no logic
 * and are dropped.
 */
module Types {

  datatype Option<T> = None | Some(value: T)

  /** The five screens the application knows about. */
  datatype ViewState = DASHBOARD | QUESTS | COACH | FOCUS | STATS

  /** The closed set of quest tiers. */
  datatype Difficulty = TINY | EASY | NORMAL

  /**
   * A quest id is the time stamp of the generate request followed by the
   * quest's position in its batch; two ids are equal exactly when both
   * parts are.
   */
  datatype QuestId = QuestId(stamp: nat, index: nat)

  datatype Quest = Quest(
    id: QuestId,
    title: string,
    description: string,
    difficulty: Difficulty,
    completed: bool,
    xp: nat)

  /** A quest before the board gives it an id and a completion flag. */
  datatype QuestDraft = QuestDraft(
    title: string,
    description: string,
    difficulty: Difficulty,
    xp: nat)

  datatype Role = User | Model

  datatype ChatMessage = ChatMessage(id: string, role: Role, text: string)

  /** A mood score is documented to lie between 1 and 5. */
  type MoodScore = s: int | 1 <= s <= 5 witness 3

  datatype MoodLog = MoodLog(date: string, score: MoodScore)

  datatype UserStats = UserStats(
    level: int,
    currentXp: int,
    nextLevelXp: int,
    streakDays: int,
    totalFocusMinutes: int)

  /** The draft part of a quest: everything but its id and its flag. */
  function Draft(q: Quest): QuestDraft
  {
    QuestDraft(q.title, q.description, q.difficulty, q.xp)
  }

  /** A draft stamped with an id and a completion flag. */
  function Stamped(d: QuestDraft, id: QuestId, completed: bool): (q: Quest)
    ensures Draft(q) == d && q.id == id && q.completed == completed
  {
    Quest(id, d.title, d.description, d.difficulty, completed, d.xp)
  }
}
