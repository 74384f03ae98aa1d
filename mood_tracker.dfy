/**
 * The mood log (components/MoodTracker.tsx): a week of mood scores to
 * which today's score is added once, the oldest entry dropping out when
 * the window would exceed seven days.
 */
module MoodTracker {
  import opened Types

  const WindowSize: nat := 7
  const Today: string := "Sun"

  /** The six preset days, Monday to Saturday. */
  function InitialData(): (r: seq<MoodLog>)
    ensures |r| == 6
  {
    [ MoodLog("Mon", 2), MoodLog("Tue", 3), MoodLog("Wed", 2),
      MoodLog("Thu", 4), MoodLog("Fri", 3), MoodLog("Sat", 5) ]
  }

  /** The last `n` entries of a sequence (all of it when shorter). */
  function LastN<T>(s: seq<T>, n: nat): (r: seq<T>)
    ensures |r| == if |s| <= n then |s| else n
  {
    if |s| <= n then s else s[|s| - n..]
  }

  /**
   * handleLog's new data: today's entry appended, then the first entry
   * dropped if the result is longer than the window. Only one entry is
   * ever dropped.
   */
  function Logged(data: seq<MoodLog>, score: MoodScore): (r: seq<MoodLog>)
    ensures |r| >= 1 && r[|r| - 1] == MoodLog(Today, score)
    ensures |data| < WindowSize ==> r[..|r| - 1] == data
    ensures |data| >= WindowSize ==> r[..|r| - 1] == data[1..]
    ensures |data| <= WindowSize ==> |r| <= WindowSize
  {
    var appended := data + [MoodLog(Today, score)];
    if |appended| > WindowSize then
      assert appended[1..] == data[1..] + [MoodLog(Today, score)];
      appended[1..]
    else
      appended
  }

  /**
   * From a window of at most seven days, logging keeps exactly the last
   * seven entries of the old data followed by today's, in order.
   */
  lemma LoggedKeepsLastWeek(data: seq<MoodLog>, score: MoodScore)
    requires |data| <= WindowSize
    ensures Logged(data, score) == LastN(data + [MoodLog(Today, score)], WindowSize)
  {
  }

  /**
   * The effect of a run of clicks on the score buttons: once today is
   * logged, later clicks change nothing.
   */
  function Clicks(data: seq<MoodLog>, todayLogged: bool, scores: seq<MoodScore>): seq<MoodLog>
    decreases |scores|
  {
    if scores == [] || todayLogged then data
    else Clicks(Logged(data, scores[0]), true, scores[1..])
  }

  /** However many times the user clicks, only the first click is logged. */
  lemma {:induction false} OnlyFirstClickCounts(data: seq<MoodLog>, scores: seq<MoodScore>)
    requires scores != []
    ensures Clicks(data, false, scores) == Logged(data, scores[0])
  {
    var once := Logged(data, scores[0]);
    assert Clicks(data, false, scores) == Clicks(once, true, scores[1..]);
  }

  /** Starting from the preset week, the chart never shows more than seven days. */
  lemma {:induction false} ClicksStayWithinWeek(scores: seq<MoodScore>)
    ensures |Clicks(InitialData(), false, scores)| <= WindowSize
  {
    if scores != [] {
      OnlyFirstClickCounts(InitialData(), scores);
    }
  }

  /** The component's state. */
  class Tracker {
    var data: seq<MoodLog>
    var todayLogged: bool

    ghost predicate Valid()
      reads this
    {
      |data| <= WindowSize
    }

    constructor ()
      ensures Valid() && data == InitialData() && !todayLogged
    {
      data := InitialData();
      todayLogged := false;
    }

    /** A click on a score button: logged once, ignored afterwards. */
    method HandleLog(score: MoodScore)
      requires Valid()
      modifies this
      ensures Valid() && todayLogged
      ensures data == if old(todayLogged) then old(data) else Logged(old(data), score)
    {
      if todayLogged {
        return;
      }
      var newData := data + [MoodLog(Today, score)];
      if |newData| > WindowSize {
        newData := newData[1..];
      }
      data := newData;
      todayLogged := true;
    }
  }
}
