/**
 * The pinyin dictionary (`pinyin-hanzi.json`): an ordered record from a
 * lower-case full spelling to the string of its characters, most frequent
 * first. Its iteration order is the order of `Object.entries`.
 */
module Dictionary {
  import opened Wrappers

  datatype Entry = Entry(spelling: string, group: string)

  /** A JavaScript object has each key at most once. */
  predicate UniqueSpellings(d: seq<Entry>) {
    forall i, j :: 0 <= i < j < |d| ==> d[i].spelling != d[j].spelling
  }

  type Dict = d: seq<Entry> | UniqueSpellings(d) witness []

  predicate HasKey(d: Dict, key: string) {
    exists i :: 0 <= i < |d| && d[i].spelling == key
  }

  /** `d[key]`: the group stored under `key`, if any. */
  function Lookup(d: Dict, key: string): (r: Option<string>)
    ensures r.Some? <==> HasKey(d, key)
    ensures r.Some? ==> exists i :: 0 <= i < |d| && d[i] == Entry(key, r.value)
    decreases |d|
  {
    if d == [] then None
    else if d[|d| - 1].spelling == key then Some(d[|d| - 1].group)
    else Lookup(d[..|d| - 1], key)
  }

  /** The group at position `i` is exactly what `Lookup` finds under its spelling. */
  lemma {:induction false} LookupAt(d: Dict, i: nat)
    requires i < |d|
    ensures Lookup(d, d[i].spelling) == Some(d[i].group)
    decreases |d|
  {
    if i < |d| - 1 {
      LookupAt(d[..|d| - 1], i);
    }
  }

  /** `toLowerCase` on ASCII letters; every other character is kept. */
  function LowerChar(c: char): (r: char)
    ensures 'A' <= c <= 'Z' ==> r as int == c as int + 32
    ensures !('A' <= c <= 'Z') ==> r == c
  {
    if 'A' <= c <= 'Z' then (c as int + 32) as char else c
  }

  function ToLower(s: string): (r: string)
    ensures |r| == |s|
    ensures forall i :: 0 <= i < |s| ==> r[i] == LowerChar(s[i])
  {
    seq(|s|, i requires 0 <= i < |s| => LowerChar(s[i]))
  }
}
