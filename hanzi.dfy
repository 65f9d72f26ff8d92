/**
 * Character lookups of `src/utils/hanzi.ts`: the reverse index
 * `charToPinyinMap` (character to the spellings it is listed under), the
 * flat list of all characters, and the four lookups built on them.
 */
module Hanzi {
  import opened Wrappers
  import opened Dictionary

  /** Occurrences of `c` in `s`. */
  function Count(s: string, c: char): nat
    decreases |s|
  {
    if s == [] then 0 else Count(s[..|s| - 1], c) + (if s[|s| - 1] == c then 1 else 0)
  }

  /** `n` copies of `x`. */
  function Repeat(x: string, n: nat): seq<string>
    decreases n
  {
    if n == 0 then [] else Repeat(x, n - 1) + [x]
  }

  /** `allHanziList`: the groups of the dictionary, in order, joined and split into characters. */
  function AllHanziList(dict: seq<Entry>): (r: string)
    ensures forall c :: c in r <==> exists i :: 0 <= i < |dict| && c in dict[i].group
    decreases |dict|
  {
    if dict == [] then []
    else
      var init := dict[..|dict| - 1];
      var r := AllHanziList(init) + dict[|dict| - 1].group;
      assert forall i :: 0 <= i < |init| ==> init[i] == dict[i];
      r
  }

  /**
   * The spellings the reverse-index loop pushes for `c`: for each entry in
   * dictionary order, its spelling once per occurrence of `c` in its group.
   */
  function SpellingsOf(dict: seq<Entry>, c: char): seq<string>
    decreases |dict|
  {
    if dict == [] then []
    else
      var e := dict[|dict| - 1];
      SpellingsOf(dict[..|dict| - 1], c) + Repeat(e.spelling, Count(e.group, c))
  }

  /** `charToPinyinMap`, as a value: a key for each character of some group. */
  function CharToPinyinMap(dict: seq<Entry>): map<char, seq<string>> {
    map c | c in AllHanziList(dict) :: SpellingsOf(dict, c)
  }

  /** The nested loop that fills `charToPinyinMap` at load time. */
  method BuildCharToPinyinMap(dict: Dict) returns (m: map<char, seq<string>>)
    ensures m == CharToPinyinMap(dict)
  {
    m := map[];
    for i := 0 to |dict|
      invariant Filled(m, dict[..i], "", [])
    {
      assert dict[..i + 1] == dict[..i] + [dict[i]];
      m := AddEntry(m, dict[i].spelling, dict[i].group, dict[..i]);
    }
    assert dict[..|dict|] == dict;
    FilledIsIndex(m, dict);
  }

  /**
   * `m` is the reverse index of `done` with `pinyin` pushed once more for
   * each character of `seen`.
   */
  ghost predicate Filled(m: map<char, seq<string>>, done: seq<Entry>, pinyin: string, seen: string) {
    && (forall c :: c in m <==> c in AllHanziList(done) + seen)
    && (forall c :: c in m ==> m[c] == SpellingsOf(done, c) + Repeat(pinyin, Count(seen, c)))
  }

  lemma FilledIsIndex(m: map<char, seq<string>>, dict: seq<Entry>)
    requires Filled(m, dict, "", [])
    ensures m == CharToPinyinMap(dict)
  {
    assert AllHanziList(dict) + [] == AllHanziList(dict);
    forall c | c in m
      ensures m[c] == SpellingsOf(dict, c)
    {
      assert SpellingsOf(dict, c) + [] == SpellingsOf(dict, c);
    }
  }

  /** Pushing `pinyin` under the next character keeps `m` filled. */
  lemma FilledStep(m: map<char, seq<string>>, done: seq<Entry>, pinyin: string, seen: string, ch: char)
    requires Filled(m, done, pinyin, seen)
    ensures Filled(m[ch := (if ch in m then m[ch] else []) + [pinyin]], done, pinyin, seen + [ch])
  {
    var m' := m[ch := (if ch in m then m[ch] else []) + [pinyin]];
    assert AllHanziList(done) + (seen + [ch]) == AllHanziList(done) + seen + [ch];
    if ch !in m {
      NotListedYet(done, seen, ch);
    }
    CountSnoc(seen, ch, pinyin);
    forall c | c in m'
      ensures m'[c] == SpellingsOf(done, c) + Repeat(pinyin, Count(seen + [ch], c))
    {
      if c != ch {
        assert Count(seen + [ch], c) == Count(seen, c);
      }
    }
  }

  /** A whole group pushed is one more entry of the dictionary. */
  lemma FilledEntry(m: map<char, seq<string>>, done: seq<Entry>, pinyin: string, hanziGroup: string)
    requires Filled(m, done, pinyin, hanziGroup)
    ensures Filled(m, done + [Entry(pinyin, hanziGroup)], "", [])
  {
    var e := Entry(pinyin, hanziGroup);
    assert (done + [e])[..|done|] == done;
    assert AllHanziList(done + [e]) + [] == AllHanziList(done) + hanziGroup;
  }

  /** The inner loop: push `pinyin` under each character of `hanziGroup`. */
  method AddEntry(m0: map<char, seq<string>>, pinyin: string, hanziGroup: string, ghost done: seq<Entry>)
    returns (m: map<char, seq<string>>)
    requires Filled(m0, done, "", [])
    ensures Filled(m, done + [Entry(pinyin, hanziGroup)], "", [])
  {
    m := m0;
    FilledStart(m, done, pinyin);
    for j := 0 to |hanziGroup|
      invariant Filled(m, done, pinyin, hanziGroup[..j])
    {
      var ch := hanziGroup[j];
      assert hanziGroup[..j + 1] == hanziGroup[..j] + [ch];
      FilledStep(m, done, pinyin, hanziGroup[..j], ch);
      if ch !in m {
        m := m[ch := []];
      }
      m := m[ch := m[ch] + [pinyin]];
    }
    assert hanziGroup[..|hanziGroup|] == hanziGroup;
    FilledEntry(m, done, pinyin, hanziGroup);
  }

  /** Nothing pushed yet: the spelling does not matter. */
  lemma FilledStart(m: map<char, seq<string>>, done: seq<Entry>, pinyin: string)
    requires Filled(m, done, "", [])
    ensures Filled(m, done, pinyin, [])
  {
  }

  /** `getHanziOf`: the group stored under the lower-cased spelling, or `[]`. */
  function GetHanziOf(dict: Dict, pinyin: string): (r: string)
    ensures (exists i :: 0 <= i < |dict| && dict[i].spelling == ToLower(pinyin) && r == dict[i].group)
         || (!HasKey(dict, ToLower(pinyin)) && r == [])
  {
    match Lookup(dict, ToLower(pinyin))
    case Some(group) => group
    case None => []
  }

  /** `getPinyinOf`: the reverse-index entry of the first character, or `[]`. */
  function GetPinyinOf(dict: Dict, hanzi: string): (r: seq<string>)
    ensures hanzi == [] ==> r == []
    ensures hanzi != [] ==> r == SpellingsOf(dict, hanzi[0])
    ensures hanzi != [] ==> |r| == Count(AllHanziList(dict), hanzi[0])
  {
    if hanzi == [] then []
    else
      var m := CharToPinyinMap(dict);
      SpellingsPerOccurrence(dict, hanzi[0]);
      if hanzi[0] in m then m[hanzi[0]]
      else
        NotListedYet(dict, [], hanzi[0]);
        []
  }

  /**
   * `isValidHanzi`: the reverse index has the string as a key, so it is one
   * character of some group, and it has at least one spelling.
   */
  function IsValidHanzi(dict: Dict, s: string): (r: bool)
    ensures r <==> |s| == 1 && exists i :: 0 <= i < |dict| && s[0] in dict[i].group
    ensures r ==> GetPinyinOf(dict, s) != []
  {
    if |s| == 1 && s[0] in CharToPinyinMap(dict) then
      CountMember(AllHanziList(dict), s[0]);
      true
    else false
  }

  /** `isValidPinyin`: the lower-cased spelling is a dictionary key, and only then does `getHanziOf` find a group. */
  function IsValidPinyin(dict: Dict, pinyin: string): (r: bool)
    ensures r <==> Lookup(dict, ToLower(pinyin)).Some?
    ensures !r ==> GetHanziOf(dict, pinyin) == []
  {
    HasKey(dict, ToLower(pinyin))
  }

  // ---------------------------------------------------------------------

  lemma {:induction false} CountConcat(s: string, t: string, c: char)
    ensures Count(s + t, c) == Count(s, c) + Count(t, c)
    decreases |t|
  {
    if t == [] {
      assert s + t == s;
    } else {
      assert (s + t)[..|s + t| - 1] == s + t[..|t| - 1];
      assert (s + t)[|s + t| - 1] == t[|t| - 1];
      CountConcat(s, t[..|t| - 1], c);
    }
  }

  /** Appending `x` adds one to its count, and one more copy of the spelling for it. */
  lemma CountSnoc(s: string, x: char, spelling: string)
    ensures forall c :: Count(s + [x], c) == Count(s, c) + (if c == x then 1 else 0)
    ensures Repeat(spelling, Count(s + [x], x)) == Repeat(spelling, Count(s, x)) + [spelling]
  {
    assert (s + [x])[..|s|] == s;
  }

  /** A character not yet met has no spellings so far. */
  lemma NotListedYet(done: seq<Entry>, seen: string, c: char)
    requires c !in AllHanziList(done) + seen
    ensures SpellingsOf(done, c) == [] && Count(seen, c) == 0
  {
    CountMember(AllHanziList(done) + seen, c);
    CountConcat(AllHanziList(done), seen, c);
    SpellingsPerOccurrence(done, c);
  }

  lemma {:induction false} CountMember(s: string, c: char)
    ensures c in s <==> Count(s, c) > 0
    decreases |s|
  {
    if s != [] {
      CountMember(s[..|s| - 1], c);
      assert s == s[..|s| - 1] + [s[|s| - 1]];
    }
  }

  lemma {:induction false} RepeatShape(x: string, n: nat, y: string)
    ensures |Repeat(x, n)| == n
    ensures multiset(Repeat(x, n))[y] == if y == x then n else 0
    decreases n
  {
    if n > 0 {
      RepeatShape(x, n - 1, y);
    }
  }

  /**
   * The reverse index lists, for each character, one spelling per
   * occurrence of it in `allHanziList`, so a character repeated within or
   * across groups yields duplicates.
   */
  lemma {:induction false} SpellingsPerOccurrence(dict: seq<Entry>, c: char)
    ensures |SpellingsOf(dict, c)| == Count(AllHanziList(dict), c)
    decreases |dict|
  {
    if dict != [] {
      var e := dict[|dict| - 1];
      SpellingsPerOccurrence(dict[..|dict| - 1], c);
      RepeatShape(e.spelling, Count(e.group, c), e.spelling);
      CountConcat(AllHanziList(dict[..|dict| - 1]), e.group, c);
    }
  }

  /** Under distinct spellings, entry `i`'s spelling is listed for `c` exactly as often as `c` occurs in entry `i`'s group. */
  lemma {:induction false} SpellingMultiplicity(dict: Dict, i: nat, c: char)
    requires i < |dict|
    ensures multiset(SpellingsOf(dict, c))[dict[i].spelling] == Count(dict[i].group, c)
    decreases |dict|
  {
    var init: Dict := dict[..|dict| - 1];
    var e := dict[|dict| - 1];
    RepeatShape(e.spelling, Count(e.group, c), dict[i].spelling);
    if i < |dict| - 1 {
      SpellingMultiplicity(init, i, c);
      assert init[i] == dict[i];
    } else {
      SpellingsAbsent(init, e.spelling, c);
    }
  }

  /** A spelling no entry carries is never listed. */
  lemma {:induction false} SpellingsAbsent(dict: seq<Entry>, spelling: string, c: char)
    requires forall j :: 0 <= j < |dict| ==> dict[j].spelling != spelling
    ensures multiset(SpellingsOf(dict, c))[spelling] == 0
    decreases |dict|
  {
    if dict != [] {
      var e := dict[|dict| - 1];
      SpellingsAbsent(dict[..|dict| - 1], spelling, c);
      RepeatShape(e.spelling, Count(e.group, c), spelling);
    }
  }

  /** For every dictionary entry and every character of its group, the entry's spelling is among `getPinyinOf` of that character. */
  lemma EveryEntryListed(dict: Dict, i: nat, hanzi: string)
    requires i < |dict| && hanzi != [] && hanzi[0] in dict[i].group
    ensures dict[i].spelling in GetPinyinOf(dict, hanzi)
  {
    var c := hanzi[0];
    CountMember(dict[i].group, c);
    SpellingMultiplicity(dict, i, c);
  }

  /** `getPinyinOf` reads only the first character of its argument. */
  lemma GetPinyinOfFirstCharOnly(dict: Dict, h1: string, h2: string)
    requires h1 != [] && h2 != [] && h1[0] == h2[0]
    ensures GetPinyinOf(dict, h1) == GetPinyinOf(dict, h2)
  {
  }

  /** `isValidPinyin` holds iff the lower-cased spelling has an entry, and then `getHanziOf` is that entry's group; a non-empty `getHanziOf` implies `isValidPinyin`. */
  lemma ValidPinyinIff(dict: Dict, pinyin: string)
    ensures IsValidPinyin(dict, pinyin) <==>
      exists i :: 0 <= i < |dict| && dict[i].spelling == ToLower(pinyin) && GetHanziOf(dict, pinyin) == dict[i].group
    ensures GetHanziOf(dict, pinyin) != [] ==> IsValidPinyin(dict, pinyin)
  {
    if IsValidPinyin(dict, pinyin) {
      var i :| 0 <= i < |dict| && dict[i].spelling == ToLower(pinyin);
      LookupAt(dict, i);
    }
  }
}
