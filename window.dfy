/**
 * The fixed-capacity history both `TypingSummary.history` and each
 * `Progress.history` keep: push the newest item, and once the length
 * exceeds the capacity, `shift` the oldest one out.
 */
module Window {
  const WindowSize: nat := 50

  /** `history.push(x)` followed by one `history.shift()` when over `capacity`. */
  function Slide<T>(history: seq<T>, x: T, capacity: nat): seq<T> {
    var pushed := history + [x];
    if |pushed| > capacity then pushed[1..] else pushed
  }

  /**
   * A window that fits keeps fitting; the newest item is last; what is
   * kept is the newest part of the pushed history, so the oldest item is
   * the one evicted.
   */
  lemma SlideKeepsNewest<T>(history: seq<T>, x: T, capacity: nat)
    requires 0 < capacity && |history| <= capacity
    ensures var r := Slide(history, x, capacity);
      && |r| == (if |history| < capacity then |history| + 1 else capacity)
      && |r| <= capacity
      && r[|r| - 1] == x
      && r == (history + [x])[|history| + 1 - |r|..]
  {
  }

  /** The item evicted, when one is, is the oldest one. */
  lemma SlideEvictsOldest<T>(history: seq<T>, x: T, capacity: nat)
    requires |history| == capacity && 0 < capacity
    ensures Slide(history, x, capacity) == history[1..] + [x]
  {
  }

  /** The last `n` items of `s` (all of them when there are fewer). */
  function Newest<T>(s: seq<T>, n: nat): (r: seq<T>)
    ensures |r| == if |s| <= n then |s| else n
  {
    if |s| <= n then s else s[|s| - n..]
  }

  /** Sliding keeps exactly the newest `capacity` items of everything pushed so far. */
  lemma SlideIsNewest<T>(s: seq<T>, x: T, capacity: nat)
    requires 0 < capacity
    ensures Slide(Newest(s, capacity), x, capacity) == Newest(s + [x], capacity)
  {
    if |s| > capacity {
      assert (s[|s| - capacity..] + [x])[1..] == (s + [x])[|s| + 1 - capacity..];
    }
  }
}
