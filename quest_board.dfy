/**
 * The quest board (components/QuestBoard.tsx): the current batch of quests,
 * its generation, completion toggling with the XP it awards, and the
 * encouragement shown when the last open quest is completed.
 */
module QuestBoard {
  import opened Types
  import opened GeminiService

  /** No two quests on the board share an id. */
  predicate UniqueIds(qs: seq<Quest>)
  {
    forall i, j :: 0 <= i < j < |qs| ==> qs[i].id != qs[j].id
  }

  /** Every quest is worth one of the tier rewards. */
  predicate TierRewards(qs: seq<Quest>)
  {
    forall q :: q in qs ==> q.xp == 10 || q.xp == 25 || q.xp == 50
  }

  predicate AllCompleted(qs: seq<Quest>)
  {
    forall i :: 0 <= i < |qs| ==> qs[i].completed
  }

  /**
   * The generated drafts in the service's order, each stamped with the
   * request's time stamp and its position, and not yet completed.
   */
  function WithIds(drafts: seq<QuestDraft>, stamp: nat): (r: seq<Quest>)
    ensures |r| == |drafts|
    ensures forall i :: 0 <= i < |r| ==> Draft(r[i]) == drafts[i] && !r[i].completed
    ensures UniqueIds(r)
  {
    seq(|drafts|, i requires 0 <= i < |drafts| => Stamped(drafts[i], QuestId(stamp, i), false))
  }

  /** Array.prototype.find by id: the position of the first quest with that id. */
  function FindIndex(qs: seq<Quest>, id: QuestId): (r: Option<nat>)
    ensures r.None? <==> forall i :: 0 <= i < |qs| ==> qs[i].id != id
    ensures r.Some? ==> r.value < |qs| && qs[r.value].id == id
    ensures r.Some? ==> forall j :: 0 <= j < r.value ==> qs[j].id != id
  {
    if qs == [] then None
    else if qs[0].id == id then Some(0)
    else match FindIndex(qs[1..], id)
      case None => None
      case Some(k) => Some(k + 1)
  }

  /** How many quests other than those with this id are still open. */
  function CountRemaining(qs: seq<Quest>, id: QuestId): (n: nat)
    ensures n <= |qs|
    ensures n == 0 <==> forall i :: 0 <= i < |qs| ==> qs[i].id == id || qs[i].completed
  {
    if qs == [] then 0
    else CountRemaining(qs[1..], id) + (if qs[0].id != id && !qs[0].completed then 1 else 0)
  }

  function Flip(q: Quest): Quest
  {
    q.(completed := !q.completed)
  }

  /** Every quest with this id has its flag flipped; all else is kept. */
  function FlipMatching(qs: seq<Quest>, id: QuestId): (r: seq<Quest>)
    ensures |r| == |qs|
    ensures forall i :: 0 <= i < |qs| ==>
              r[i] == if qs[i].id == id then Flip(qs[i]) else qs[i]
  {
    seq(|qs|, i requires 0 <= i < |qs| => if qs[i].id == id then Flip(qs[i]) else qs[i])
  }

  /**
   * What a toggle does: the new list, the XP it awards (if any), and, when
   * it asks the coach for an encouragement, the count it passes.
   */
  datatype ToggleOutcome = ToggleOutcome(
    quests: seq<Quest>,
    gain: Option<nat>,
    cheerCount: Option<nat>)

  /**
   * toggleQuest as one step. An unknown id changes nothing. An open quest
   * awards its XP and is marked done, and when it was the last open one an
   * encouragement is requested for the whole batch. A done quest is
   * reopened without any XP being taken back.
   */
  function Toggle(qs: seq<Quest>, id: QuestId): (o: ToggleOutcome)
    ensures |o.quests| == |qs|
    ensures forall i :: 0 <= i < |qs| ==>
              Draft(o.quests[i]) == Draft(qs[i]) && o.quests[i].id == qs[i].id
    ensures UniqueIds(qs) ==> UniqueIds(o.quests)
    ensures TierRewards(qs) ==> TierRewards(o.quests)
    ensures o.gain.Some? ==> exists k :: 0 <= k < |qs| && qs[k].id == id && o.gain.value == qs[k].xp
    ensures o.cheerCount.Some? ==> o.gain.Some? && o.cheerCount.value == |qs|
  {
    match FindIndex(qs, id)
    case None => ToggleOutcome(qs, None, None)
    case Some(k) =>
      if !qs[k].completed then
        ToggleOutcome(FlipMatching(qs, id), Some(qs[k].xp),
                      if CountRemaining(qs, id) == 0 then Some(|qs|) else None)
      else
        ToggleOutcome(FlipMatching(qs, id), None, None)
  }

  /** Toggling an id that is on no quest changes nothing and awards nothing. */
  lemma ToggleUnknownIdIsNoOp(qs: seq<Quest>, id: QuestId)
    requires forall i :: 0 <= i < |qs| ==> qs[i].id != id
    ensures Toggle(qs, id) == ToggleOutcome(qs, None, None)
  {
  }

  /**
   * Toggling the quest at position k (ids being unique) flips that quest's
   * flag and nothing else; it awards the quest's XP exactly when the quest
   * was open; it requests an encouragement, for the whole batch, exactly
   * when the quest was the last open one, that is, exactly when every
   * quest is done afterwards.
   */
  lemma {:induction false} ToggleAt(qs: seq<Quest>, k: nat)
    requires UniqueIds(qs) && k < |qs|
    ensures Toggle(qs, qs[k].id).quests == qs[k := Flip(qs[k])]
    ensures Toggle(qs, qs[k].id).gain == if qs[k].completed then None else Some(qs[k].xp)
    ensures Toggle(qs, qs[k].id).cheerCount.Some? <==>
              !qs[k].completed && forall j :: 0 <= j < |qs| && j != k ==> qs[j].completed
    ensures Toggle(qs, qs[k].id).cheerCount.Some? <==>
              !qs[k].completed && AllCompleted(Toggle(qs, qs[k].id).quests)
    ensures Toggle(qs, qs[k].id).cheerCount.Some? ==> Toggle(qs, qs[k].id).cheerCount == Some(|qs|)
  {
    var id := qs[k].id;
    var o := Toggle(qs, id);
    assert FindIndex(qs, id) == Some(k);
    assert FlipMatching(qs, id) == qs[k := Flip(qs[k])];
    if !qs[k].completed {
      assert CountRemaining(qs, id) == 0 <==> forall j :: 0 <= j < |qs| && j != k ==> qs[j].completed;
    }
  }

  /** Toggling the same id twice restores the list. */
  lemma {:induction false} ToggleTwiceRestores(qs: seq<Quest>, id: QuestId)
    ensures Toggle(Toggle(qs, id).quests, id).quests == qs
  {
    var once := Toggle(qs, id).quests;
    match FindIndex(qs, id)
    case None =>
    case Some(k) =>
      assert once == FlipMatching(qs, id);
      assert FindIndex(once, id).Some?;
      assert FlipMatching(once, id) == qs;
  }

  /**
   * Completing, reopening and completing a quest again awards its XP twice:
   * reopening never takes XP back, and completion does not remember that
   * the quest was paid before.
   */
  lemma {:induction false} RecompletionPaysAgain(qs: seq<Quest>, k: nat)
    requires UniqueIds(qs) && k < |qs| && !qs[k].completed
    ensures var id := qs[k].id;
            var first := Toggle(qs, id);
            var second := Toggle(first.quests, id);
            var third := Toggle(second.quests, id);
            first.gain == Some(qs[k].xp) && second.gain == None && third.gain == Some(qs[k].xp)
  {
    var id := qs[k].id;
    ToggleAt(qs, k);
    var q1 := Toggle(qs, id).quests;
    assert q1[k].id == id;
    ToggleAt(q1, k);
    var q2 := Toggle(q1, id).quests;
    assert q2 == qs;
    ToggleAt(q2, k);
  }

  /**
   * The component's state. `loading` is true only while a generate request
   * is awaited; since a handler is modelled as one step it is false between
   * steps.
   */
  class Board {
    var quests: seq<Quest>
    var loading: bool
    var interest: string
    var selectedDifficulty: Difficulty
    var encouragement: string

    ghost predicate Valid()
      reads this
    {
      UniqueIds(quests) && TierRewards(quests)
    }

    constructor ()
      ensures Valid()
      ensures quests == [] && !loading && interest == "" && selectedDifficulty == TINY
      ensures encouragement == ""
    {
      quests := [];
      loading := false;
      interest := "";
      selectedDifficulty := TINY;
      encouragement := "";
    }

    method SelectDifficulty(d: Difficulty)
      modifies this`selectedDifficulty
      ensures selectedDifficulty == d
    {
      selectedDifficulty := d;
    }

    method SetInterest(text: string)
      modifies this`interest
      ensures interest == text
    {
      interest := text;
    }

    /**
     * handleGenerate: clears the encouragement and replaces the whole list
     * with the service's batch. Returns the topic the request named.
     */
    method Generate(reply: QuestReply, stamp: nat) returns (topic: string)
      modifies this`quests, this`loading, this`encouragement
      ensures Valid()
      ensures topic == PromptTopic(selectedDifficulty, interest)
      ensures quests == WithIds(GenerateDailyQuests(selectedDifficulty, reply), stamp)
      ensures encouragement == "" && !loading
    {
      loading := true;
      encouragement := "";
      topic := PromptTopic(selectedDifficulty, interest);
      var drafts := GenerateDailyQuests(selectedDifficulty, reply);
      quests := WithIds(drafts, stamp);
      loading := false;
    }

    /**
     * toggleQuest: returns the XP to hand to the progression engine; the
     * coach's reply is used only when the toggle asks for an encouragement.
     */
    method ToggleQuest(id: QuestId, cheerReply: TextReply) returns (gain: Option<nat>)
      requires Valid()
      modifies this`quests, this`encouragement
      ensures Valid()
      ensures quests == Toggle(old(quests), id).quests
      ensures gain == Toggle(old(quests), id).gain
      ensures encouragement == if Toggle(old(quests), id).cheerCount.Some?
                               then GenerateEncouragement(cheerReply)
                               else old(encouragement)
    {
      var found := FindIndex(quests, id);
      if found.None? {
        return None;
      }
      var quest := quests[found.value];
      if !quest.completed {
        gain := Some(quest.xp);
        if CountRemaining(quests, id) == 0 {
          encouragement := GenerateEncouragement(cheerReply);
        }
      } else {
        gain := None;
      }
      quests := FlipMatching(quests, id);
    }

    /** The refresh button: empties the list and leaves the encouragement. */
    method Reset()
      modifies this`quests
      ensures Valid()
      ensures quests == []
    {
      quests := [];
    }
  }
}
