/**
 * The application shell (App.tsx): the user's level and XP, the level-up
 * rule applied to every XP gain, which panels each view shows, and the
 * quest board feeding its rewards into the level and XP.
 */
module App {
  import opened Types
  import opened GeminiService
  import opened QuestBoard

  function InitialStats(): UserStats
  {
    UserStats(level := 1, currentXp := 0, nextLevelXp := 100, streakDays := 3, totalFocusMinutes := 0)
  }

  /**
   * floor(n * 1.2) on integers. For the thresholds the application reaches
   * this agrees with the floating-point product.
   */
  function GrowThreshold(n: int): (r: int)
    ensures n >= 0 ==> n <= r <= 2 * n
  {
    (n * 6) / 5
  }

  /**
   * handleXpGain: add the amount; if the sum reaches the threshold, go up
   * one level, carry the surplus, and grow the threshold. At most one level
   * is gained per call, however large the amount.
   */
  function GainXp(prev: UserStats, amount: int): (next: UserStats)
    ensures next.streakDays == prev.streakDays
    ensures next.totalFocusMinutes == prev.totalFocusMinutes
    ensures next.level == prev.level || next.level == prev.level + 1
    ensures next.level == prev.level + 1 <==> prev.currentXp + amount >= prev.nextLevelXp
    ensures next.level == prev.level ==> next.nextLevelXp == prev.nextLevelXp
    ensures prev.nextLevelXp >= 0 ==> next.nextLevelXp >= prev.nextLevelXp
    ensures next.currentXp + (next.level - prev.level) * prev.nextLevelXp == prev.currentXp + amount
  {
    var newXp := prev.currentXp + amount;
    if newXp >= prev.nextLevelXp then
      prev.(level := prev.level + 1,
            currentXp := newXp - prev.nextLevelXp,
            nextLevelXp := GrowThreshold(prev.nextLevelXp))
    else
      prev.(currentXp := newXp)
  }

  /** The threshold of a level, starting from 100 at level 1. */
  function Threshold(level: nat): nat
  {
    if level <= 1 then 100 else GrowThreshold(Threshold(level - 1))
  }

  /** The XP it takes to reach a level from level 1. */
  function Banked(level: nat): nat
  {
    if level <= 1 then 0 else Banked(level - 1) + Threshold(level - 1)
  }

  /** A user's lifetime XP: what their level took, plus what they hold now. */
  function Lifetime(s: UserStats): int
    requires s.level >= 1
  {
    Banked(s.level) + s.currentXp
  }

  /** Stats the application can reach through quest rewards. */
  ghost predicate StatsValid(s: UserStats)
  {
    s.level >= 1 && s.nextLevelXp == Threshold(s.level) && 0 <= s.currentXp < s.nextLevelXp
  }

  lemma InitialStatsAreValid()
    ensures StatsValid(InitialStats())
  {
  }

  /** Every threshold is at least the first one, 100. */
  lemma {:induction false} ThresholdAtLeast100(level: nat)
    ensures Threshold(level) >= 100
  {
    if level > 1 {
      ThresholdAtLeast100(level - 1);
    }
  }

  /** Thresholds never shrink from one level to the next. */
  lemma {:induction false} ThresholdMonotone(a: nat, b: nat)
    requires a <= b
    ensures Threshold(a) <= Threshold(b)
  {
    if a < b && b > 1 {
      ThresholdMonotone(a, b - 1);
    }
  }

  /** The first thresholds: 100, 120, 144, 172. */
  lemma FirstThresholds()
    ensures Threshold(1) == 100 && Threshold(2) == 120 && Threshold(3) == 144 && Threshold(4) == 172
  {
  }

  /**
   * Amounts no larger than the threshold keep the XP between zero and the
   * threshold.
   */
  lemma GainKeepsXpBelowThreshold(s: UserStats, amount: int)
    requires 0 <= s.currentXp < s.nextLevelXp
    requires 0 <= amount <= s.nextLevelXp
    ensures 0 <= GainXp(s, amount).currentXp < GainXp(s, amount).nextLevelXp
  {
  }

  /**
   * A gain neither creates nor loses XP: lifetime XP grows by exactly the
   * amount, and the threshold stays the one of the new level.
   */
  lemma GainConservesLifetimeXp(s: UserStats, amount: int)
    requires s.level >= 1 && s.nextLevelXp == Threshold(s.level)
    ensures GainXp(s, amount).level >= 1
    ensures GainXp(s, amount).nextLevelXp == Threshold(GainXp(s, amount).level)
    ensures Lifetime(GainXp(s, amount)) == Lifetime(s) + amount
  {
  }

  /** A quest reward (at most 50) keeps reachable stats reachable. */
  lemma QuestRewardKeepsStatsValid(s: UserStats, amount: int)
    requires StatsValid(s) && 0 <= amount <= 50
    ensures StatsValid(GainXp(s, amount))
  {
    ThresholdAtLeast100(s.level);
  }

  /**
   * Examples of the one-level-per-call rule from the initial stats: 100
   * and 150 level up once, and so does 300, which leaves the XP above the
   * new threshold.
   */
  lemma OneLevelPerGainExamples()
    ensures GainXp(InitialStats(), 100) == InitialStats().(level := 2, currentXp := 0, nextLevelXp := 120)
    ensures GainXp(InitialStats(), 150) == InitialStats().(level := 2, currentXp := 50, nextLevelXp := 120)
    ensures GainXp(InitialStats(), 300) == InitialStats().(level := 2, currentXp := 200, nextLevelXp := 120)
    ensures !StatsValid(GainXp(InitialStats(), 300))
  {
  }

  /** The panels the main area shows for each view. */
  datatype Panel = QuestPanel | CoachPanel | MoodPanel | TimerPanel

  function MainPanels(v: ViewState): (r: seq<Panel>)
    ensures r == [] <==> v == STATS
    ensures QuestPanel in r <==> v == DASHBOARD || v == QUESTS
  {
    match v
    case DASHBOARD => [QuestPanel, CoachPanel, MoodPanel, TimerPanel]
    case QUESTS => [QuestPanel]
    case COACH => [CoachPanel]
    case FOCUS => [TimerPanel]
    case STATS => []
  }

  /** The user's stats as component state. */
  class AppState {
    var stats: UserStats

    constructor ()
      ensures stats == InitialStats()
    {
      stats := InitialStats();
    }

    method HandleXpGain(amount: int)
      modifies this`stats
      ensures stats == GainXp(old(stats), amount)
    {
      stats := GainXp(stats, amount);
    }

    /** A click on a quest: the board's toggle, its reward routed to the stats. */
    method ToggleOnBoard(board: Board, id: QuestId, cheerReply: TextReply)
      requires board.Valid()
      modifies this`stats, board`quests, board`encouragement
      ensures board.Valid()
      ensures board.quests == Toggle(old(board.quests), id).quests
      ensures board.encouragement == if Toggle(old(board.quests), id).cheerCount.Some?
                                     then GenerateEncouragement(cheerReply)
                                     else old(board.encouragement)
      ensures stats == ApplyGain(old(stats), Toggle(old(board.quests), id).gain)
      ensures StatsValid(old(stats)) ==> StatsValid(stats)
    {
      ghost var before := board.quests;
      var gain := board.ToggleQuest(id, cheerReply);
      if gain.Some? {
        ghost var k :| 0 <= k < |before| && before[k].id == id && gain.value == before[k].xp;
        assert before[k] in before;
        if StatsValid(stats) {
          QuestRewardKeepsStatsValid(stats, gain.value);
        }
        HandleXpGain(gain.value);
      }
    }
  }

  function ApplyGain(s: UserStats, gain: Option<nat>): UserStats
  {
    match gain
    case None => s
    case Some(a) => GainXp(s, a)
  }

  /** What the user can do on the quest board. */
  datatype BoardAction =
    | GenerateQuests(difficulty: Difficulty, reply: QuestReply, stamp: nat)
    | ToggleQuest(id: QuestId)
    | ResetQuests

  /** The board's quests, the stats, and the total XP awarded so far. */
  datatype Session = Session(stats: UserStats, quests: seq<Quest>, awarded: nat)

  function Amount(gain: Option<nat>): nat
  {
    match gain
    case None => 0
    case Some(a) => a
  }

  function Apply(s: Session, a: BoardAction): Session
  {
    match a
    case GenerateQuests(d, reply, stamp) => s.(quests := WithIds(GenerateDailyQuests(d, reply), stamp))
    case ToggleQuest(id) =>
      var o := Toggle(s.quests, id);
      Session(ApplyGain(s.stats, o.gain), o.quests, s.awarded + Amount(o.gain))
    case ResetQuests => s.(quests := [])
  }

  function Play(s: Session, actions: seq<BoardAction>): Session
    decreases |actions|
  {
    if actions == [] then s else Play(Apply(s, actions[0]), actions[1..])
  }

  /**
   * Whatever the user does on the board and whatever the service answers,
   * the stats stay reachable (XP below the threshold of the level) and
   * lifetime XP grows by exactly the XP the board awarded.
   */
  lemma {:induction false} PlayKeepsStatsValid(s: Session, actions: seq<BoardAction>)
    requires StatsValid(s.stats) && TierRewards(s.quests)
    ensures StatsValid(Play(s, actions).stats)
    ensures Lifetime(Play(s, actions).stats) == Lifetime(s.stats) + Play(s, actions).awarded - s.awarded
    decreases |actions|
  {
    if actions != [] {
      var next := Apply(s, actions[0]);
      match actions[0] {
        case GenerateQuests(d, reply, stamp) =>
          var qs := WithIds(GenerateDailyQuests(d, reply), stamp);
          assert forall i :: 0 <= i < |qs| ==> Draft(qs[i]) == GenerateDailyQuests(d, reply)[i];
          assert TierRewards(next.quests);
        case ToggleQuest(id) =>
          var o := Toggle(s.quests, id);
          if o.gain.Some? {
            var k :| 0 <= k < |s.quests| && s.quests[k].id == id && o.gain.value == s.quests[k].xp;
            assert s.quests[k] in s.quests;
            QuestRewardKeepsStatsValid(s.stats, o.gain.value);
            GainConservesLifetimeXp(s.stats, o.gain.value);
          }
        case ResetQuests =>
      }
      PlayKeepsStatsValid(next, actions[1..]);
    }
  }

  /**
   * From the initial stats and an empty board, lifetime XP is exactly the XP
   * the board awarded, and the stats stay reachable.
   */
  lemma {:induction false} FreshSessionStaysValid(start: Session, actions: seq<BoardAction>)
    requires start.stats == InitialStats() && start.quests == [] && start.awarded == 0
    ensures StatsValid(Play(start, actions).stats)
    ensures Lifetime(Play(start, actions).stats) == Play(start, actions).awarded
  {
    InitialStatsAreValid();
    BalancedSessionStaysBalanced(start, actions);
  }

  /**
   * A session whose lifetime XP equals the XP awarded so far keeps that
   * balance, and reachable stats, whatever is played next.
   */
  lemma {:induction false} BalancedSessionStaysBalanced(start: Session, actions: seq<BoardAction>)
    requires StatsValid(start.stats) && TierRewards(start.quests)
    requires Lifetime(start.stats) == start.awarded
    ensures StatsValid(Play(start, actions).stats)
    ensures Lifetime(Play(start, actions).stats) == Play(start, actions).awarded
  {
    PlayKeepsStatsValid(start, actions);
  }
}
