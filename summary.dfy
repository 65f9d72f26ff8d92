/**
 * The typing statistics of `src/utils/summary.ts`: `TypingSummary` keeps
 * a window of the last fifty matches (result, time taken, key presses)
 * and running totals, and derives accuracy, speed and presses per
 * character from them. `performance.now()` is the `now` parameter, in
 * milliseconds; the getters' results are exact reals.
 *
 * The achievement tables of the same file are transcribed as constants.
 */
module Summary {
  import opened Window
  import opened Ratio

  /** Longer pauses than this are not counted as typing time. */
  const IdleLimit: int := 5000

  /** One entry of `history`. */
  datatype Record = Record(result: bool, duration: int, presses: nat)

  /** The recorded duration: the time since the last event, or 0 after a long pause or before any event. */
  function IdleFiltered(lastTime: int, now: int): (r: int)
    ensures r <= IdleLimit
    ensures r == 0 || r == now - lastTime
    ensures lastTime == 0 ==> r == 0
    ensures now - lastTime > IdleLimit ==> r == 0
    ensures lastTime != 0 && now - lastTime <= IdleLimit ==> r == now - lastTime
  {
    var diff := now - lastTime;
    if diff > IdleLimit || lastTime == 0 then 0 else diff
  }

  // ---------------------------------------------------------------------
  // The folds the getters compute over `history`
  // ---------------------------------------------------------------------

  /** `history.filter(h => h.result).length`. */
  function CorrectCount(h: seq<Record>): nat
    decreases |h|
  {
    if h == [] then 0 else CorrectCount(h[..|h| - 1]) + (if h[|h| - 1].result then 1 else 0)
  }

  /** `history.reduce((sum, h) => sum + h.duration, 0)`. */
  function TotalDuration(h: seq<Record>): int
    decreases |h|
  {
    if h == [] then 0 else TotalDuration(h[..|h| - 1]) + h[|h| - 1].duration
  }

  /** The presses summed over the correct entries only. */
  function CorrectPresses(h: seq<Record>): nat
    decreases |h|
  {
    if h == [] then 0 else CorrectPresses(h[..|h| - 1]) + (if h[|h| - 1].result then h[|h| - 1].presses else 0)
  }

  /** The presses summed over all entries. */
  function AllPresses(h: seq<Record>): nat
    decreases |h|
  {
    if h == [] then 0 else AllPresses(h[..|h| - 1]) + h[|h| - 1].presses
  }

  /** No more correct entries than entries, and no more presses on correct entries than in all. */
  lemma {:induction false} FoldBounds(h: seq<Record>)
    ensures CorrectCount(h) <= |h|
    ensures CorrectPresses(h) <= AllPresses(h)
    ensures CorrectCount(h) == 0 ==> CorrectPresses(h) == 0
    decreases |h|
  {
    if h != [] {
      FoldBounds(h[..|h| - 1]);
    }
  }

  /** Each fold splits off the oldest entry as it splits off the newest. */
  lemma {:induction false} FoldsFront(h: seq<Record>)
    requires h != []
    ensures CorrectCount(h) == (if h[0].result then 1 else 0) + CorrectCount(h[1..])
    ensures TotalDuration(h) == h[0].duration + TotalDuration(h[1..])
    ensures CorrectPresses(h) == (if h[0].result then h[0].presses else 0) + CorrectPresses(h[1..])
    ensures AllPresses(h) == h[0].presses + AllPresses(h[1..])
    decreases |h|
  {
    if |h| > 1 {
      var init := h[..|h| - 1];
      FoldsFront(init);
      assert init[1..] == h[1..][..|h[1..]| - 1];
    }
  }

  /** Appending a record adds its contribution to each fold. */
  lemma FoldsSnoc(h: seq<Record>, x: Record)
    ensures CorrectCount(h + [x]) == CorrectCount(h) + (if x.result then 1 else 0)
    ensures CorrectPresses(h + [x]) == CorrectPresses(h) + (if x.result then x.presses else 0)
    ensures AllPresses(h + [x]) == AllPresses(h) + x.presses
    ensures ShortEntries(h) && x.duration <= IdleLimit ==> ShortEntries(h + [x])
  {
    assert (h + [x])[..|h|] == h;
  }

  /** A suffix of the records counts no more than all of them. */
  lemma {:induction false} FoldsOfSuffix(h: seq<Record>, k: nat)
    requires k <= |h|
    ensures CorrectCount(h[k..]) <= CorrectCount(h)
    ensures AllPresses(h[k..]) <= AllPresses(h)
    ensures ShortEntries(h) ==> ShortEntries(h[k..])
    decreases k
  {
    if k > 0 {
      FoldsOfSuffix(h, k - 1);
      FoldsFront(h[k - 1..]);
      assert h[k - 1..][1..] == h[k..];
    }
  }

  /** No entry took longer than the idle limit. */
  predicate ShortEntries(h: seq<Record>) {
    forall i :: 0 <= i < |h| ==> h[i].duration <= IdleLimit
  }

  /**
   * The window is the newest fifty of all records, the totals count all
   * records and presses, and no entry took longer than the idle limit.
   */
  ghost predicate Tallied(history: seq<Record>, records: seq<Record>, valid: nat, correct: nat, presses: nat, current: nat) {
    && history == Newest(records, WindowSize)
    && valid == |records|
    && correct == CorrectCount(records)
    && presses == AllPresses(records) + current
    && ShortEntries(records)
  }

  /** Recording a match whose entry carries the pending presses keeps the tallies. */
  lemma TalliedRecord(history: seq<Record>, records: seq<Record>, valid: nat, correct: nat, presses: nat, entry: Record)
    requires Tallied(history, records, valid, correct, presses, entry.presses)
    requires entry.duration <= IdleLimit
    ensures Tallied(Slide(history, entry, WindowSize), records + [entry],
      valid + 1, correct + (if entry.result then 1 else 0), presses, 0)
  {
    SlideIsNewest(records, entry, WindowSize);
    FoldsSnoc(records, entry);
  }

  // ---------------------------------------------------------------------
  // TypingSummary
  // ---------------------------------------------------------------------

  class TypingSummary {
    var history: seq<Record>
    /** Every record ever pushed, oldest first. */
    ghost var records: seq<Record>
    var lastTime: int
    var currentTermPresses: nat
    var totalPressCount: nat
    var totalCorrectMatches: nat
    var totalValidMatches: nat

    /**
     * The window is the newest fifty of all records, the totals count all
     * records and presses, and no entry took longer than the idle limit.
     */
    ghost predicate Valid()
      reads this
    {
      Tallied(history, records, totalValidMatches, totalCorrectMatches, totalPressCount, currentTermPresses)
    }

    /**
     * What the invariant implies: at most fifty entries, all counted in the
     * totals, none longer than the idle limit, and no more correct matches
     * than matches.
     */
    lemma ValidBounds()
      requires Valid()
      ensures |history| <= WindowSize && |history| <= totalValidMatches
      ensures totalCorrectMatches <= totalValidMatches
      ensures CorrectCount(history) <= totalCorrectMatches
      ensures AllPresses(history) + currentTermPresses <= totalPressCount
      ensures ShortEntries(history)
    {
      FoldBounds(records);
      if |records| > WindowSize {
        FoldsOfSuffix(records, |records| - WindowSize);
      }
    }

    constructor ()
      ensures Valid()
      ensures history == [] && records == [] && lastTime == 0 && currentTermPresses == 0
      ensures totalPressCount == 0 && totalCorrectMatches == 0 && totalValidMatches == 0
    {
      history := [];
      records := [];
      lastTime := 0;
      currentTermPresses := 0;
      totalPressCount := 0;
      totalCorrectMatches := 0;
      totalValidMatches := 0;
    }

    /** `onKeyPressed`: count the press; the first press after a match starts its clock. */
    method OnKeyPressed(now: int)
      requires Valid()
      modifies this
      ensures Valid()
      ensures totalPressCount == old(totalPressCount) + 1
      ensures currentTermPresses == old(currentTermPresses) + 1
      ensures lastTime == if old(lastTime) == 0 then now else old(lastTime)
      ensures history == old(history) && records == old(records)
      ensures totalCorrectMatches == old(totalCorrectMatches) && totalValidMatches == old(totalValidMatches)
    {
      totalPressCount := totalPressCount + 1;
      currentTermPresses := currentTermPresses + 1;
      if lastTime == 0 {
        lastTime := now;
      }
    }

    /** `onValid`: count the match, record it in the window, and restart the per-match counters. */
    method OnValid(result: bool, now: int)
      requires Valid()
      modifies this
      ensures Valid()
      ensures totalValidMatches == old(totalValidMatches) + 1
      ensures totalCorrectMatches == old(totalCorrectMatches) + (if result then 1 else 0)
      ensures history == Slide(old(history),
        Record(result, IdleFiltered(old(lastTime), now), old(currentTermPresses)), WindowSize)
      ensures records == old(records) + [Record(result, IdleFiltered(old(lastTime), now), old(currentTermPresses))]
      ensures lastTime == now && currentTermPresses == 0
      ensures totalPressCount == old(totalPressCount)
    {
      var diff := now - lastTime;
      if diff > IdleLimit || lastTime == 0 {
        diff := 0;
      }
      assert diff == IdleFiltered(lastTime, now) && diff <= IdleLimit;
      var entry := Record(result, diff, currentTermPresses);
      TalliedRecord(history, records, totalValidMatches, totalCorrectMatches, totalPressCount, entry);
      totalValidMatches := totalValidMatches + 1;
      if result {
        totalCorrectMatches := totalCorrectMatches + 1;
      }
      records := records + [entry];
      PushEntry(entry);
      lastTime := now;
      currentTermPresses := 0;
    }

    /** The window update of `onValid`: push the entry and shift the oldest one out past fifty. */
    method PushEntry(entry: Record)
      modifies this`history
      ensures history == Slide(old(history), entry, WindowSize)
    {
      history := history + [entry];
      if |history| > WindowSize {
        history := history[1..];
      }
    }

    /** `slidingAccuracy`: the share of correct entries in the window, 0 when it is empty. */
    function SlidingAccuracy(): (r: real)
      reads this
      ensures |history| == 0 ==> r == 0.0
      ensures |history| > 0 ==> r * |history| as real == CorrectCount(history) as real
      ensures 0.0 <= r <= 1.0
    {
      if |history| == 0 then 0.0
      else
        FoldBounds(history);
        UnitRatio(CorrectCount(history), |history|);
        CorrectCount(history) as real / |history| as real
    }

    /** `hanziPerMinutes`: correct entries per minute of recorded typing time. */
    function HanziPerMinutes(): (r: real)
      reads this
      ensures TotalDuration(history) == 0 || CorrectCount(history) == 0 ==> r == 0.0
      ensures TotalDuration(history) != 0 && CorrectCount(history) != 0 ==>
        r * TotalDuration(history) as real == CorrectCount(history) as real * 60000.0
    {
      var totalDuration := TotalDuration(history);
      var totalCorrect := CorrectCount(history);
      if totalDuration == 0 || totalCorrect == 0 then 0.0
      else totalCorrect as real / totalDuration as real * 1000.0 * 60.0
    }

    /** `pressPerHanzi`: the mean number of presses over the correct entries. */
    function PressPerHanzi(): (r: real)
      reads this
      ensures CorrectCount(history) == 0 ==> r == 0.0
      ensures CorrectCount(history) > 0 ==> r * CorrectCount(history) as real == CorrectPresses(history) as real
      ensures r >= 0.0
    {
      var correct := CorrectCount(history);
      if correct == 0 then 0.0 else CorrectPresses(history) as real / correct as real
    }

    /** `totalAccuracy`: the share of correct matches since the start, 0 before any match. */
    function TotalAccuracy(): (r: real)
      reads this
      ensures totalValidMatches == 0 ==> r == 0.0
      ensures totalValidMatches > 0 ==> r * totalValidMatches as real == totalCorrectMatches as real
      ensures totalCorrectMatches <= totalValidMatches ==> 0.0 <= r <= 1.0
    {
      if totalValidMatches == 0 then 0.0
      else if totalCorrectMatches <= totalValidMatches then
        UnitRatio(totalCorrectMatches, totalValidMatches);
        totalCorrectMatches as real / totalValidMatches as real
      else totalCorrectMatches as real / totalValidMatches as real
    }
  }

  // ---------------------------------------------------------------------
  // Achievement tables
  // ---------------------------------------------------------------------

  datatype AchievementCond = CorrectMatches | BestCombos | BestAccuracy | BestHPW | BestWPM

  /** For presses per character, lower is better. */
  const LowerIsBetter: set<AchievementCond> := {BestHPW}

  /** The title unlocked at each level of each measure. */
  const AchievementConds: map<AchievementCond, map<real, string>> := map[
    CorrectMatches := map[1.0 := "你好双拼", 10.0 := "整挺好", 100.0 := "小试牛刀", 1000.0 := "渐入佳境",
                          5000.0 := "小有所成", 10000.0 := "轻车熟路", 20000.0 := "真正的粉丝", 50000.0 := "学无止境"],
    BestCombos := map[17.0 := "格洛克", 30.0 := "突击手", 42.0 := "终极答案", 100.0 := "精准制导", 238.0 := "铀"],
    BestAccuracy := map[50.0 := "日取其半", 60.0 := "及格了", 75.0 := "中坚力量", 85.0 := "尖子生",
                        90.0 := "开悟之坡", 95.0 := "平流层", 99.0 := "就差一点", 100.0 := "完美主义"],
    BestWPM := map[10.0 := "一指禅", 20.0 := "二指禅", 40.0 := "四平八稳", 60.0 := "顺溜", 80.0 := "指尖飞舞",
                   100.0 := "无情铁手", 120.0 := "芝加哥打字机", 160.0 := "我是传奇", 200.0 := "我是人类"],
    BestHPW := map[3.0 := "驯服手指", 2.8 := "手眼协调", 2.5 := "肌肉记忆", 2.3 := "精准点射",
                   2.1 := "狙击手", 2.0 := "复印机"]
  ]

  /** The thresholds of each certification. */
  const FinalAchievement: map<string, map<AchievementCond, real>> := map[
    "初级双拼认证" := map[CorrectMatches := 1000.0, BestAccuracy := 75.0],
    "中级双拼认证" := map[CorrectMatches := 1000.0, BestAccuracy := 90.0],
    "高级双拼认证" := map[CorrectMatches := 1000.0, BestAccuracy := 95.0],
    "双拼大师" := map[CorrectMatches := 1000.0, BestAccuracy := 99.0, BestHPW := 2.1, BestWPM := 120.0]
  ]

  /** Every certification threshold is one of the titled levels of the same measure. */
  lemma FinalThresholdsAreLevels()
    ensures forall name, cond :: name in FinalAchievement && cond in FinalAchievement[name] ==>
      cond in AchievementConds && FinalAchievement[name][cond] in AchievementConds[cond]
  {
  }
}
