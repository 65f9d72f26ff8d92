/**
 * The per-key proficiency ledger of `src/store.ts`: the `progresses`
 * dictionary from a key name (a lead key, a follow key or a full
 * spelling) to a record of the last fifty results typed on it (1 for a
 * correct match, 0 for a wrong one), their running sum, and a total count.
 */
module Store {
  import opened Window
  import opened Ratio

  datatype Progress = Progress(currentIndex: int, total: int, history: seq<int>, correctSum: int)

  /** The record `getProgress` creates for a name seen for the first time. */
  const ZeroProgress: Progress := Progress(0, 0, [], 0)

  function Sum(s: seq<int>): int
    decreases |s|
  {
    if s == [] then 0 else Sum(s[..|s| - 1]) + s[|s| - 1]
  }

  /** Every recorded result is 0 or 1. */
  predicate Bits(s: seq<int>) {
    forall i :: 0 <= i < |s| ==> s[i] == 0 || s[i] == 1
  }

  /** A record as the store keeps it: a window of bits and the sum of that window. */
  predicate Consistent(p: Progress) {
    |p.history| <= WindowSize && Bits(p.history) && p.correctSum == Sum(p.history)
  }

  /** `isValid ? 1 : 0`. */
  function Bit(isValid: bool): int {
    if isValid then 1 else 0
  }

  /** The body of the loop of `updateProgressOnValid` on one record. */
  function Record(p: Progress, value: int): (r: Progress)
    ensures r.history == Slide(p.history, value, WindowSize)
    ensures r.total == p.total + 1 && r.currentIndex == p.currentIndex
    ensures Consistent(p) && (value == 0 || value == 1) ==> Consistent(r)
  {
    var history := p.history + [value];
    var correctSum := p.correctSum + value;
    assert history[..|history| - 1] == p.history;
    if |history| > WindowSize then
      SumFront(history);
      Progress(p.currentIndex, p.total + 1, history[1..], correctSum - history[0])
    else
      Progress(p.currentIndex, p.total + 1, history, correctSum)
  }

  /** The record under `name`, or the one `getProgress` would create. */
  function GetOrZero(m: map<string, Progress>, name: string): Progress {
    if name in m then m[name] else ZeroProgress
  }

  /** The ledger after recording `value` for each of `names`, in order. */
  function RecordAll(m: map<string, Progress>, names: seq<string>, value: int): (r: map<string, Progress>)
    ensures r.Keys == m.Keys + set k | k in names
    decreases |names|
  {
    if names == [] then m
    else
      var m' := RecordAll(m, names[..|names| - 1], value);
      var name := names[|names| - 1];
      assert names == names[..|names| - 1] + [name];
      m'[name := Record(GetOrZero(m', name), value)]
  }

  /** Recording one more name updates that record on top of the others. */
  lemma RecordAllSnoc(m: map<string, Progress>, names: seq<string>, name: string, value: int)
    ensures RecordAll(m, names + [name], value)
         == RecordAll(m, names, value)[name := Record(GetOrZero(RecordAll(m, names, value), name), value)]
  {
    assert (names + [name])[..|names|] == names;
  }

  // ---------------------------------------------------------------------
  // What recording does to one record
  // ---------------------------------------------------------------------

  lemma {:induction false} SumFront(s: seq<int>)
    requires s != []
    ensures Sum(s) == s[0] + Sum(s[1..])
    decreases |s|
  {
    if |s| > 1 {
      SumFront(s[..|s| - 1]);
      assert s[..|s| - 1][1..] == s[1..][..|s[1..]| - 1];
    }
  }

  lemma {:induction false} SumOfBits(s: seq<int>)
    requires Bits(s)
    ensures 0 <= Sum(s) <= |s|
    decreases |s|
  {
    if s != [] {
      SumOfBits(s[..|s| - 1]);
    }
  }

  /**
   * Recording appends the bit and evicts the oldest one past fifty,
   * counts one more result, and keeps the sum equal to the window's.
   */
  // ---------------------------------------------------------------------
  // What recording does to the ledger
  // ---------------------------------------------------------------------

  /** Records not named are untouched, and exactly the named ones are added. */
  lemma {:induction false} RecordAllOthers(m: map<string, Progress>, names: seq<string>, value: int, k: string)
    ensures k in RecordAll(m, names, value) <==> k in m || k in names
    ensures k !in names && k in m ==> RecordAll(m, names, value)[k] == m[k]
    decreases |names|
  {
    if names != [] {
      var init := names[..|names| - 1];
      assert names == init + [names[|names| - 1]];
      RecordAllOthers(m, init, value, k);
    }
  }

  /** Recording bits keeps every record of the ledger consistent. */
  lemma {:induction false} RecordAllConsistent(m: map<string, Progress>, names: seq<string>, value: int, k: string)
    requires forall k' :: k' in m ==> Consistent(m[k'])
    requires value == 0 || value == 1
    requires k in RecordAll(m, names, value)
    ensures Consistent(RecordAll(m, names, value)[k])
    decreases |names|
  {
    if names == [] {
      assert Consistent(m[k]);
    } else {
      var init, name := names[..|names| - 1], names[|names| - 1];
      var m' := RecordAll(m, init, value);
      assert names == init + [name];
      RecordAllSnoc(m, init, name, value);
      if k == name {
        if name in m' {
          RecordAllConsistent(m, init, value, name);
        }
      } else {
        RecordAllConsistent(m, init, value, k);
      }
    }
  }

  /** Recording one more name: that record is recorded once more, every other record is kept. */
  lemma RecordAllLast(m: map<string, Progress>, names: seq<string>, name: string, value: int, k: string)
    requires k in RecordAll(m, names, value) || k == name
    ensures k in RecordAll(m, names + [name], value)
    ensures RecordAll(m, names + [name], value)[k]
         == if k == name then Record(GetOrZero(RecordAll(m, names, value), name), value) else RecordAll(m, names, value)[k]
  {
    RecordAllSnoc(m, names, name, value);
  }

  /** With three distinct names, each named record is recorded once, starting from zero when new. */
  lemma RecordThreeDistinct(m: map<string, Progress>, a: string, b: string, c: string, value: int)
    requires a != b && b != c && a != c
    ensures var r := RecordAll(m, [a, b, c], value);
      && r[a] == Record(GetOrZero(m, a), value)
      && r[b] == Record(GetOrZero(m, b), value)
      && r[c] == Record(GetOrZero(m, c), value)
  {
    var ab, abc := [a, b], [a, b, c];
    assert [a] == [] + [a] && ab == [a] + [b] && abc == ab + [c];
    var r1, r2 := RecordAll(m, [a], value), RecordAll(m, ab, value);
    RecordAllOthers(m, [a], value, b);
    RecordAllOthers(m, ab, value, c);
    assert GetOrZero(r1, b) == GetOrZero(m, b);
    assert GetOrZero(r2, c) == GetOrZero(m, c);
    RecordAllLast(m, [], a, value, a);
    RecordAllLast(m, [a], b, value, a);
    RecordAllLast(m, [a], b, value, b);
    RecordAllLast(m, ab, c, value, a);
    RecordAllLast(m, ab, c, value, b);
    RecordAllLast(m, ab, c, value, c);
  }

  /**
   * A lead and a follow never name the same record as each other's
   * combination unless one is empty; with the empty lead, the combination
   * is the follow itself and that record is recorded twice.
   */
  lemma EmptyLeadRecordsFollowTwice(m: map<string, Progress>, follow: string, value: int)
    requires follow != ""
    ensures var r := RecordAll(m, ["", follow, "" + follow], value);
      && r[follow] == Record(Record(GetOrZero(m, follow), value), value)
      && r[""] == Record(GetOrZero(m, ""), value)
  {
    var e, ef := [""], ["", follow];
    assert "" + follow == follow;
    assert e == [] + [""] && ef == e + [follow] && ["", follow, "" + follow] == ef + [follow];
    var r1 := RecordAll(m, e, value);
    RecordAllOthers(m, e, value, follow);
    assert GetOrZero(r1, follow) == GetOrZero(m, follow);
    RecordAllLast(m, [], "", value, "");
    RecordAllLast(m, e, follow, value, "");
    RecordAllLast(m, e, follow, value, follow);
    RecordAllLast(m, ef, follow, value, "");
    RecordAllLast(m, ef, follow, value, follow);
  }

  /** The names of one match: lead, follow and their combination. */
  function NamesOf(lead: string, follow: string): seq<string> {
    [lead, follow, lead + follow]
  }

  /** With a non-empty lead and follow, the combination names a record of its own. */
  lemma NamesDistinct(lead: string, follow: string)
    requires lead != "" && follow != ""
    ensures NamesOf(lead, follow)[0] != NamesOf(lead, follow)[2]
    ensures NamesOf(lead, follow)[1] != NamesOf(lead, follow)[2]
  {
    assert |lead + follow| > |lead| && |lead + follow| > |follow|;
  }

  // ---------------------------------------------------------------------
  // The store
  // ---------------------------------------------------------------------

  class ProgressStore {
    var progresses: map<string, Progress>

    constructor ()
      ensures progresses == map[]
    {
      progresses := map[];
    }

    /** `getProgress`: the record under `name`, created zeroed when absent. */
    method GetProgress(name: string) returns (p: Progress)
      modifies this
      ensures name in old(progresses) ==> progresses == old(progresses) && p == old(progresses)[name]
      ensures name !in old(progresses) ==> progresses == old(progresses)[name := ZeroProgress] && p == ZeroProgress
    {
      if name !in progresses {
        progresses := progresses[name := ZeroProgress];
      }
      p := progresses[name];
    }

    /** `updateProgress`: replace the record under `name`. */
    method UpdateProgress(name: string, progress: Progress)
      modifies this
      ensures progresses == old(progresses)[name := progress]
    {
      progresses := progresses[name := progress];
    }

    /** `updateProgressOnValid`: record the bit on the lead, the follow and the combination, in that order. */
    method UpdateProgressOnValid(lead: string, follow: string, isValid: bool)
      modifies this
      ensures progresses == RecordAll(old(progresses), NamesOf(lead, follow), Bit(isValid))
    {
      var value := if isValid then 1 else 0;
      var names := [lead, follow, lead + follow];
      for i := 0 to |names|
        invariant progresses == RecordAll(old(progresses), names[..i], value)
      {
        assert names[..i + 1] == names[..i] + [names[i]];
        RecordAllSnoc(old(progresses), names[..i], names[i], value);
        RecordOne(names[i], value);
      }
      assert names[..|names|] == names;
    }

    /** One pass of the loop of `updateProgressOnValid`: push the bit, keep the sum, evict past fifty, count. */
    method RecordOne(name: string, value: int)
      modifies this
      ensures progresses == old(progresses)[name := Record(GetOrZero(old(progresses), name), value)]
    {
      var progress := GetProgress(name);
      var history := progress.history + [value];
      var correctSum := progress.correctSum + value;
      if |history| > WindowSize {
        var removedValue := history[0];
        history := history[1..];
        correctSum := correctSum - removedValue;
      }
      progress := Progress(progress.currentIndex, progress.total + 1, history, correctSum);
      progresses := progresses[name := progress];
    }

    /** `getAccuracy`: the share of ones in the record's window, 0 when absent or empty. */
    function GetAccuracy(name: string): (r: real)
      reads this
      ensures name !in progresses || progresses[name].history == [] ==> r == 0.0
      ensures name in progresses && progresses[name].history != [] ==>
        r * |progresses[name].history| as real == progresses[name].correctSum as real
      ensures name in progresses && Consistent(progresses[name]) ==> 0.0 <= r <= 1.0
    {
      if name !in progresses || |progresses[name].history| == 0 then 0.0
      else
        var p := progresses[name];
        if Consistent(p) then
          SumOfBits(p.history);
          UnitRatio(p.correctSum, |p.history|);
          p.correctSum as real / |p.history| as real
        else p.correctSum as real / |p.history| as real
    }
  }
}
