/**
 * The progressive lesson of `src/utils/useProgressiveLogic.ts`: the keys a
 * lesson index unlocks, the characters sampled for each unlocked
 * combination and split into "new" (they use the newest key) and "old",
 * the practice list built from them, and the wrapping cursor that hands
 * that list out one character at a time.
 *
 * lodash's `shuffle` is random; here it is `Shuffle`, driven by a
 * sequence of rolls passed in by the caller.
 */
module Progressive {
  import opened Wrappers
  import opened Dictionary
  import opened Pinyin
  import opened Hanzi

  const TopFreqCharsPerPinyin: nat := 10
  const PreviewListSize: nat := 10

  function Min(a: nat, b: nat): nat {
    if a <= b then a else b
  }

  // ---------------------------------------------------------------------
  // getActiveContext
  // ---------------------------------------------------------------------

  /** `latestKey` is `None` past the end of the curriculum, where the source reads `undefined`. */
  datatype Context = Context(activeKeys: seq<string>, latestKey: Option<string>, activeLeads: set<string>)

  /** `getActiveContext(idx)`: the unlocked keys, the newest of them, and the unlocked lead keys plus the empty lead. */
  function GetActiveContext(idx: nat): (ctx: Context)
    ensures |ctx.activeKeys| == Min(idx + 1, |ProgressiveKeys|)
    ensures ctx.activeKeys == ProgressiveKeys[..|ctx.activeKeys|]
    ensures idx < |ProgressiveKeys| ==> ctx.latestKey == Some(ctx.activeKeys[|ctx.activeKeys| - 1])
    ensures idx >= |ProgressiveKeys| ==> ctx.latestKey == None
    ensures "" in ctx.activeLeads
    ensures forall l :: l in ctx.activeLeads ==> l in AllLeads
    ensures forall l :: l in ctx.activeLeads <==> l == "" || (l in ctx.activeKeys && l in LeadKeys)
  {
    var keys := ProgressiveKeys;
    var activeKeys := keys[..Min(idx + 1, |keys|)];
    var latestKey := if idx < |keys| then Some(keys[idx]) else None;
    Context(activeKeys, latestKey, LeadsAmong(activeKeys))
  }

  /** The lead keys among `keys`, plus the empty lead. */
  function LeadsAmong(keys: seq<string>): (r: set<string>)
    ensures forall l :: l in r <==> l == "" || (l in keys && l in LeadKeys)
  {
    (set k | k in keys && k in LeadKeys) + {""}
  }

  /** `activeKeys.filter(k => followKeys.includes(k))`. */
  function ActiveFollows(activeKeys: seq<string>): (r: seq<string>)
    ensures forall f :: f in r <==> f in activeKeys && f in FollowKeys
    decreases |activeKeys|
  {
    if activeKeys == [] then []
    else
      var init := ActiveFollows(activeKeys[..|activeKeys| - 1]);
      var k := activeKeys[|activeKeys| - 1];
      assert activeKeys == activeKeys[..|activeKeys| - 1] + [k];
      if k in FollowKeys then init + [k] else init
  }

  // ---------------------------------------------------------------------
  // pickTopCharacters
  // ---------------------------------------------------------------------

  /** `pickTopCharacters`: `count` characters taken cyclically from `chars`, or none when it is empty. */
  function PickTopCharacters(chars: string, count: nat): (r: string)
    ensures chars == [] ==> r == []
    ensures chars != [] ==> |r| == count
  {
    if chars == [] then [] else seq(count, i requires 0 <= i < count => chars[i % |chars|])
  }

  /**
   * The sample is `chars` repeated from its start: only characters of
   * `chars`, the first `min(count, |chars|)` of them in order, and all of
   * them once `count` reaches `|chars|`.
   */
  lemma PickTopCovers(chars: string, count: nat)
    ensures forall c :: c in PickTopCharacters(chars, count) ==> c in chars
    ensures PickTopCharacters(chars, count)[..Min(count, |chars|)] == chars[..Min(count, |chars|)]
    ensures count >= |chars| ==> forall c :: c in chars ==> c in PickTopCharacters(chars, count)
  {
    var r := PickTopCharacters(chars, count);
    if chars != [] {
      forall i | 0 <= i < Min(count, |chars|)
        ensures r[i] == chars[i]
      {
      }
      if count >= |chars| {
        forall c | c in chars
          ensures c in r
        {
          var i :| 0 <= i < |chars| && chars[i] == c;
          assert r[i] == c;
        }
      }
    }
  }

  /** The `i`-th sampled character is `chars[i mod |chars|]`. */
  lemma PickTopAt(chars: string, count: nat, i: nat)
    requires chars != [] && i < count
    ensures PickTopCharacters(chars, count)[i] == chars[i % |chars|]
  {
  }

  // ---------------------------------------------------------------------
  // categorizeHanzi
  // ---------------------------------------------------------------------

  /** The two lists `categorizeHanzi` returns. */
  datatype Split = Split(currentItems: string, oldItems: string)

  /** The ten most frequent characters of a combination, cyclically. */
  function Sample(dict: Dict, p: Pinyin): string {
    PickTopCharacters(GetHanziOf(dict, p.full), TopFreqCharsPerPinyin)
  }

  /** `p.lead === latestKey || p.follow === latestKey`; a string never equals `undefined`. */
  predicate IsNew(p: Pinyin, latestKey: Option<string>) {
    latestKey.Some? && (p.lead == latestKey.value || p.follow == latestKey.value)
  }

  /** The combinations the outer loop visits: the `followMap` list of each follow key in turn. */
  function Visited(followMap: map<string, seq<Pinyin>>, follows: seq<string>): seq<Pinyin>
    decreases |follows|
  {
    if follows == [] then []
    else Visited(followMap, follows[..|follows| - 1]) + Get(followMap, follows[|follows| - 1])
  }

  /** The two lists after the inner loop has seen the combinations `ps`. */
  function Route(dict: Dict, ps: seq<Pinyin>, leads: set<string>, latestKey: Option<string>): Split
    decreases |ps|
  {
    if ps == [] then Split([], [])
    else
      var r := Route(dict, ps[..|ps| - 1], leads, latestKey);
      var p := ps[|ps| - 1];
      var sampled := Sample(dict, p);
      if p.lead !in leads || sampled == [] then r
      else if IsNew(p, latestKey) then Split(r.currentItems + sampled, r.oldItems)
      else Split(r.currentItems, r.oldItems + sampled)
  }

  /** What `categorizeHanzi(idx)` returns. */
  function Categorized(dict: Dict, followMap: map<string, seq<Pinyin>>, idx: nat): Split {
    var ctx := GetActiveContext(idx);
    Route(dict, Visited(followMap, ActiveFollows(ctx.activeKeys)), ctx.activeLeads, ctx.latestKey)
  }

  /** `categorizeHanzi`: the nested loop over the unlocked follow keys and their combinations. */
  method CategorizeHanzi(dict: Dict, followMap: map<string, seq<Pinyin>>, idx: nat)
    returns (currentItems: string, oldItems: string)
    ensures Split(currentItems, oldItems) == Categorized(dict, followMap, idx)
  {
    var ctx := GetActiveContext(idx);
    currentItems, oldItems := [], [];
    var activeFollows := ActiveFollows(ctx.activeKeys);
    for i := 0 to |activeFollows|
      invariant Split(currentItems, oldItems)
             == Route(dict, Visited(followMap, activeFollows[..i]), ctx.activeLeads, ctx.latestKey)
    {
      var list := Get(followMap, activeFollows[i]);
      VisitedNext(followMap, activeFollows, i);
      currentItems, oldItems := CategorizeList(dict, list, ctx.activeLeads, ctx.latestKey,
        currentItems, oldItems, Visited(followMap, activeFollows[..i]));
    }
    assert activeFollows[..|activeFollows|] == activeFollows;
  }

  /** The outer loop visits one more follow key's list. */
  lemma VisitedNext(followMap: map<string, seq<Pinyin>>, follows: seq<string>, i: nat)
    requires i < |follows|
    ensures Visited(followMap, follows[..i + 1]) == Visited(followMap, follows[..i]) + Get(followMap, follows[i])
  {
    assert follows[..i + 1][..i] == follows[..i];
  }

  /** The inner loop of `categorizeHanzi`, over the combinations listed under one follow key. */
  method CategorizeList(dict: Dict, list: seq<Pinyin>, activeLeads: set<string>, latestKey: Option<string>,
                        currentItems: string, oldItems: string, ghost before: seq<Pinyin>)
    returns (currentItems': string, oldItems': string)
    requires Split(currentItems, oldItems) == Route(dict, before, activeLeads, latestKey)
    ensures Split(currentItems', oldItems') == Route(dict, before + list, activeLeads, latestKey)
  {
    currentItems', oldItems' := currentItems, oldItems;
    assert before + list[..0] == before;
    for j := 0 to |list|
      invariant Split(currentItems', oldItems') == Route(dict, before + list[..j], activeLeads, latestKey)
    {
      var p := list[j];
      RouteNext(dict, before, list, j, activeLeads, latestKey);
      if p.lead !in activeLeads {
        continue;
      }
      var sampled := Sample(dict, p);
      if |sampled| == 0 {
        continue;
      }
      var isNew := latestKey.Some? && (p.lead == latestKey.value || p.follow == latestKey.value);
      if isNew {
        currentItems' := currentItems' + sampled;
      } else {
        oldItems' := oldItems' + sampled;
      }
    }
    assert list[..|list|] == list;
  }

  /** One more combination: skipped, or its sample appended to the new or the old list. */
  lemma RouteSnoc(dict: Dict, ps: seq<Pinyin>, p: Pinyin, leads: set<string>, latestKey: Option<string>)
    ensures var r := Route(dict, ps, leads, latestKey);
      var sampled := Sample(dict, p);
      Route(dict, ps + [p], leads, latestKey)
        == if p.lead !in leads || sampled == [] then r
           else if IsNew(p, latestKey) then Split(r.currentItems + sampled, r.oldItems)
           else Split(r.currentItems, r.oldItems + sampled)
  {
    assert (ps + [p])[..|ps|] == ps;
  }

  /** `RouteSnoc` at the `j`-th combination of a list visited after `before`. */
  lemma RouteNext(dict: Dict, before: seq<Pinyin>, list: seq<Pinyin>, j: nat, leads: set<string>, latestKey: Option<string>)
    requires j < |list|
    ensures var r := Route(dict, before + list[..j], leads, latestKey);
      var p := list[j];
      var sampled := Sample(dict, p);
      Route(dict, before + list[..j + 1], leads, latestKey)
        == if p.lead !in leads || sampled == [] then r
           else if IsNew(p, latestKey) then Split(r.currentItems + sampled, r.oldItems)
           else Split(r.currentItems, r.oldItems + sampled)
  {
    assert before + list[..j + 1] == (before + list[..j]) + [list[j]];
    RouteSnoc(dict, before + list[..j], list[j], leads, latestKey);
  }

  /** Combination `p` puts `c` into the new list (`toNew`) or into the old one. */
  predicate Feeds(dict: Dict, p: Pinyin, leads: set<string>, latestKey: Option<string>, toNew: bool, c: char) {
    p.lead in leads && IsNew(p, latestKey) == toNew && c in Sample(dict, p)
  }

  /**
   * A character is in the new list exactly when some visited combination
   * with an unlocked lead that uses the newest key sampled it, and in the
   * old list exactly when such a combination not using the newest key did.
   */
  lemma {:induction false} RouteIff(dict: Dict, ps: seq<Pinyin>, leads: set<string>, latestKey: Option<string>, c: char)
    ensures c in Route(dict, ps, leads, latestKey).currentItems
        <==> exists p :: p in ps && Feeds(dict, p, leads, latestKey, true, c)
    ensures c in Route(dict, ps, leads, latestKey).oldItems
        <==> exists p :: p in ps && Feeds(dict, p, leads, latestKey, false, c)
    decreases |ps|
  {
    if ps != [] {
      var init := ps[..|ps| - 1];
      var last := ps[|ps| - 1];
      assert ps == init + [last];
      RouteIff(dict, init, leads, latestKey, c);
      RouteStep(dict, init, last, leads, latestKey, c, true);
      RouteStep(dict, init, last, leads, latestKey, c, false);
    }
  }

  /** The list `toNew` selects. */
  function Side(r: Split, toNew: bool): string {
    if toNew then r.currentItems else r.oldItems
  }

  /** One more combination adds `c` to a list exactly when it feeds `c` there. */
  lemma RouteStep(dict: Dict, init: seq<Pinyin>, last: Pinyin, leads: set<string>, latestKey: Option<string>, c: char, toNew: bool)
    ensures c in Side(Route(dict, init + [last], leads, latestKey), toNew)
        <==> c in Side(Route(dict, init, leads, latestKey), toNew) || Feeds(dict, last, leads, latestKey, toNew, c)
    ensures (exists p :: p in init + [last] && Feeds(dict, p, leads, latestKey, toNew, c))
        <==> (exists p :: p in init && Feeds(dict, p, leads, latestKey, toNew, c)) || Feeds(dict, last, leads, latestKey, toNew, c)
  {
    RouteSnoc(dict, init, last, leads, latestKey);
    FeedsSnoc(dict, init, last, leads, latestKey, toNew, c);
  }

  lemma FeedsSnoc(dict: Dict, init: seq<Pinyin>, last: Pinyin, leads: set<string>, latestKey: Option<string>, toNew: bool, c: char)
    ensures (exists p :: p in init + [last] && Feeds(dict, p, leads, latestKey, toNew, c))
        <==> (exists p :: p in init && Feeds(dict, p, leads, latestKey, toNew, c)) || Feeds(dict, last, leads, latestKey, toNew, c)
  {
    if exists p :: p in init + [last] && Feeds(dict, p, leads, latestKey, toNew, c) {
      var p :| p in init + [last] && Feeds(dict, p, leads, latestKey, toNew, c);
      if p != last {
        assert p in init;
      }
    }
  }

  /** Each contributing combination adds exactly ten characters to one list. */
  lemma {:induction false} RouteInTens(dict: Dict, ps: seq<Pinyin>, leads: set<string>, latestKey: Option<string>)
    ensures |Route(dict, ps, leads, latestKey).currentItems| % TopFreqCharsPerPinyin == 0
    ensures |Route(dict, ps, leads, latestKey).oldItems| % TopFreqCharsPerPinyin == 0
    decreases |ps|
  {
    if ps != [] {
      RouteInTens(dict, ps[..|ps| - 1], leads, latestKey);
    }
  }

  /**
   * Over the loaded `followMap`, the outer loop meets each discovered
   * combination twice for every time its follow key is listed, and no
   * other combination; so the inner loop tests, and may sample, each
   * combination twice.
   */
  lemma {:induction false} VisitedTwice(dict: Dict, follows: seq<string>, p: Pinyin)
    ensures multiset(Visited(IndexOf(dict).followMap, follows))[p]
         == if p in Discovered(dict) then 2 * multiset(follows)[p.follow] else 0
    decreases |follows|
  {
    if follows != [] {
      var init := follows[..|follows| - 1];
      var last := follows[|follows| - 1];
      assert follows == init + [last];
      VisitedTwice(dict, init, p);
      KeyedListsShape(dict, Follow, last);
      var m := IndexOf(dict).followMap;
      assert multiset(Get(m, last))[p] == if p in Discovered(dict) && p.follow == last then 2 else 0;
    }
  }

  lemma {:induction false} VisitedMember(followMap: map<string, seq<Pinyin>>, follows: seq<string>, p: Pinyin)
    ensures p in Visited(followMap, follows) <==> exists f :: f in follows && p in Get(followMap, f)
    decreases |follows|
  {
    if follows != [] {
      var init := follows[..|follows| - 1];
      var last := follows[|follows| - 1];
      assert follows == init + [last];
      VisitedMember(followMap, init, p);
      if exists f :: f in follows && p in Get(followMap, f) {
        var f :| f in follows && p in Get(followMap, f);
        if f != last {
          assert f in init;
        }
      }
    }
  }

  /**
   * Over the loaded `followMap`, every combination `categorizeHanzi`
   * visits is a discovered one whose follow key is unlocked; with the lead
   * test of the inner loop, whatever it samples uses unlocked keys only.
   */
  lemma VisitedAreActive(dict: Dict, idx: nat, p: Pinyin)
    requires p in Visited(IndexOf(dict).followMap, ActiveFollows(GetActiveContext(idx).activeKeys))
    ensures p in Discovered(dict)
    ensures p.follow in GetActiveContext(idx).activeKeys && p.follow in FollowKeys
  {
    var follows := ActiveFollows(GetActiveContext(idx).activeKeys);
    VisitedMember(IndexOf(dict).followMap, follows, p);
    var f :| f in follows && p in Get(IndexOf(dict).followMap, f);
    KeyedListsShape(dict, Follow, f);
  }

  /** The last key of the curriculum is `ng`, which is neither a lead nor a follow key. */
  lemma LastKeyIsNg()
    ensures ProgressiveKeys[|ProgressiveKeys| - 1] == "ng"
    ensures "ng" !in LeadKeys && "ng" !in FollowKeys
  {
    LeadKeysShape();
    FollowKeysShape();
    assert !VowelInitial("ng");
  }

  /**
   * At the last lesson, whose newest key `ng` is neither a lead nor a
   * follow key, and past the end of the curriculum, nothing is new.
   */
  lemma NothingNewFromNg(dict: Dict, idx: nat)
    requires idx >= |ProgressiveKeys| - 1
    ensures Categorized(dict, IndexOf(dict).followMap, idx).currentItems == []
  {
    var ctx := GetActiveContext(idx);
    var ps := Visited(IndexOf(dict).followMap, ActiveFollows(ctx.activeKeys));
    var r := Route(dict, ps, ctx.activeLeads, ctx.latestKey);
    assert Categorized(dict, IndexOf(dict).followMap, idx) == r;
    if r.currentItems != [] {
      RouteIff(dict, ps, ctx.activeLeads, ctx.latestKey, r.currentItems[0]);
      var p :| p in ps && Feeds(dict, p, ctx.activeLeads, ctx.latestKey, true, r.currentItems[0]);
      if idx >= |ProgressiveKeys| {
        assert false;
      } else {
        LastKeyIsNg();
        assert ctx.latestKey == Some("ng");
        assert p.lead == "ng" || p.follow == "ng";
        VisitedAreActive(dict, idx, p);
        DiscoveredIff(dict, p);
        assert false;
      }
    }
  }

  // ---------------------------------------------------------------------
  // shuffle and interleaveLists
  // ---------------------------------------------------------------------

  /** A shuffle: the first roll picks the element put first, the rest shuffle what remains. */
  function Shuffle<T>(s: seq<T>, rolls: seq<nat>): (r: seq<T>)
    ensures |r| == |s|
    ensures multiset(r) == multiset(s)
    decreases |s|
  {
    if s == [] then []
    else
      var k := if rolls == [] then 0 else rolls[0] % |s|;
      assert s == s[..k] + [s[k]] + s[k + 1..];
      [s[k]] + Shuffle(s[..k] + s[k + 1..], if rolls == [] then [] else rolls[1..])
  }

  /**
   * The training pool exactly as written: for each old character, the new
   * character `shuffledNew[i % |shuffledNew|]` and then the old one. With no
   * new characters, `i % 0` is `NaN` and the read gives `undefined`, shown
   * here as `None`.
   */
  function TrainingPoolAsWritten(shuffledNew: string, shuffledOld: string): (r: seq<Option<char>>)
    ensures |r| == 2 * |shuffledOld|
  {
    seq(2 * |shuffledOld|, k requires 0 <= k < 2 * |shuffledOld| =>
      if k % 2 == 1 then Some(shuffledOld[k / 2])
      else if shuffledNew == [] then None
      else Some(shuffledNew[(k / 2) % |shuffledNew|]))
  }

  /** With no new characters, the as-written pool holds `undefined` entries. */
  lemma PoolUndefinedWithoutNew(shuffledOld: string)
    requires shuffledOld != []
    ensures None in TrainingPoolAsWritten([], shuffledOld)
    ensures TrainingPoolAsWritten([], ['x']) == [None, Some('x')]
  {
    assert TrainingPoolAsWritten([], shuffledOld)[0] == None;
  }

  /** The new character paired with the `i`-th old one, left out when there is none. */
  function Partner(shuffledNew: string, i: nat): string {
    if shuffledNew == [] then [] else [shuffledNew[i % |shuffledNew|]]
  }

  /** The training pool as intended: the pairs, or the old characters alone when nothing is new. */
  function TrainingPool(shuffledNew: string, shuffledOld: string): (r: string)
    ensures |r| == (if shuffledNew == [] then 1 else 2) * |shuffledOld|
    decreases |shuffledOld|
  {
    if shuffledOld == [] then []
    else
      var i := |shuffledOld| - 1;
      TrainingPool(shuffledNew, shuffledOld[..i]) + Partner(shuffledNew, i) + [shuffledOld[i]]
  }

  /**
   * From the last lesson on nothing is new, so the list is the old
   * characters alone, reordered: no preview and no new partners.
   */
  lemma LastLessonsReviewOnly(dict: Dict, idx: nat, rolls: Rolls)
    requires idx >= |ProgressiveKeys| - 1
    ensures multiset(HanziListFor(dict, IndexOf(dict).followMap, idx, rolls))
         == multiset(Categorized(dict, IndexOf(dict).followMap, idx).oldItems)
  {
    var split := Categorized(dict, IndexOf(dict).followMap, idx);
    NothingNewFromNg(dict, idx);
    var shuffledNew := Shuffle(split.currentItems, rolls.newRolls);
    var shuffledOld := Shuffle(split.oldItems, rolls.oldRolls);
    assert shuffledNew == [];
    TrainingPoolWithoutNew(shuffledOld);
    assert Interleaved(shuffledNew, shuffledOld, rolls.poolRolls) == Shuffle(shuffledOld, rolls.poolRolls);
  }

  /** Positions `2i` and `2i+1` of the pool hold `new[i mod |new|]` and `old[i]`. */
  lemma {:induction false} TrainingPoolAt(shuffledNew: string, shuffledOld: string, i: nat)
    requires shuffledNew != [] && i < |shuffledOld|
    ensures TrainingPool(shuffledNew, shuffledOld)[2 * i] == shuffledNew[i % |shuffledNew|]
    ensures TrainingPool(shuffledNew, shuffledOld)[2 * i + 1] == shuffledOld[i]
    decreases |shuffledOld|
  {
    var n := |shuffledOld| - 1;
    if i < n {
      TrainingPoolAt(shuffledNew, shuffledOld[..n], i);
    }
  }

  /** Without new characters the intended pool is the old characters in order. */
  lemma {:induction false} TrainingPoolWithoutNew(shuffledOld: string)
    ensures TrainingPool([], shuffledOld) == shuffledOld
    decreases |shuffledOld|
  {
    if shuffledOld != [] {
      TrainingPoolWithoutNew(shuffledOld[..|shuffledOld| - 1]);
    }
  }

  /** The intended pool agrees with the pool as written whenever there are new characters. */
  lemma TrainingPoolAgrees(shuffledNew: string, shuffledOld: string)
    requires shuffledNew != []
    ensures var pool := TrainingPool(shuffledNew, shuffledOld);
      forall k :: 0 <= k < |pool| ==> TrainingPoolAsWritten(shuffledNew, shuffledOld)[k] == Some(pool[k])
  {
    var pool := TrainingPool(shuffledNew, shuffledOld);
    forall k | 0 <= k < |pool|
      ensures TrainingPoolAsWritten(shuffledNew, shuffledOld)[k] == Some(pool[k])
    {
      TrainingPoolAt(shuffledNew, shuffledOld, k / 2);
    }
  }

  /** The pool draws only on the new and the old characters, and has every old one. */
  lemma {:induction false} TrainingPoolMembers(shuffledNew: string, shuffledOld: string)
    ensures forall c :: c in TrainingPool(shuffledNew, shuffledOld) ==> c in shuffledNew || c in shuffledOld
    ensures forall c :: c in shuffledOld ==> c in TrainingPool(shuffledNew, shuffledOld)
    decreases |shuffledOld|
  {
    if shuffledOld != [] {
      var i := |shuffledOld| - 1;
      TrainingPoolMembers(shuffledNew, shuffledOld[..i]);
      assert shuffledOld == shuffledOld[..i] + [shuffledOld[i]];
    }
  }

  /** What `interleaveLists` returns: the preview, then the shuffled pool. */
  function Interleaved(shuffledNew: string, shuffledOld: string, rolls: seq<nat>): string {
    shuffledNew[..Min(PreviewListSize, |shuffledNew|)] + Shuffle(TrainingPool(shuffledNew, shuffledOld), rolls)
  }

  /** `interleaveLists`, with the pool guarded against an empty new list. */
  method InterleaveLists(shuffledNew: string, shuffledOld: string, rolls: seq<nat>) returns (result: string)
    ensures result == Interleaved(shuffledNew, shuffledOld, rolls)
  {
    var previewSession := shuffledNew[..Min(PreviewListSize, |shuffledNew|)];
    var trainingPool := [];
    for i := 0 to |shuffledOld|
      invariant trainingPool == TrainingPool(shuffledNew, shuffledOld[..i])
    {
      assert shuffledOld[..i + 1][..i] == shuffledOld[..i];
      if |shuffledNew| > 0 {
        var newChar := shuffledNew[i % |shuffledNew|];
        trainingPool := trainingPool + [newChar];
      }
      trainingPool := trainingPool + [shuffledOld[i]];
    }
    assert shuffledOld[..|shuffledOld|] == shuffledOld;
    result := previewSession + Shuffle(trainingPool, rolls);
  }

  /**
   * The list starts with up to ten new characters, and the rest is a
   * permutation of the pool, which has two entries per old character (one
   * without new characters).
   */
  lemma InterleavedShape(shuffledNew: string, shuffledOld: string, rolls: seq<nat>)
    ensures var r := Interleaved(shuffledNew, shuffledOld, rolls);
      var p := Min(PreviewListSize, |shuffledNew|);
      && |r| == p + (if shuffledNew == [] then 1 else 2) * |shuffledOld|
      && r[..p] == shuffledNew[..p]
      && multiset(r[p..]) == multiset(TrainingPool(shuffledNew, shuffledOld))
  {
    var r := Interleaved(shuffledNew, shuffledOld, rolls);
    var p := Min(PreviewListSize, |shuffledNew|);
    assert r[p..] == Shuffle(TrainingPool(shuffledNew, shuffledOld), rolls);
  }

  // ---------------------------------------------------------------------
  // useProgressiveLogic
  // ---------------------------------------------------------------------

  /** The rolls of the three `shuffle` calls one rebuild makes. */
  datatype Rolls = Rolls(newRolls: seq<nat>, oldRolls: seq<nat>, poolRolls: seq<nat>)

  /**
   * The list `updateHanziList` builds for lesson `idx`: empty for a negative
   * index; otherwise up to ten new characters first, then a pool holding
   * every old character and drawing only on the new and old ones.
   */
  function HanziListFor(dict: Dict, followMap: map<string, seq<Pinyin>>, idx: int, rolls: Rolls): (r: string)
    ensures idx < 0 ==> r == []
    ensures idx >= 0 ==>
      var split := Categorized(dict, followMap, idx);
      var p := Min(PreviewListSize, |split.currentItems|);
      && |r| == p + (if split.currentItems == [] then 1 else 2) * |split.oldItems|
      && (forall k :: 0 <= k < p ==> r[k] in split.currentItems)
      && (forall c :: c in r ==> c in split.currentItems || c in split.oldItems)
      && (forall c :: c in split.oldItems ==> c in r)
  {
    if idx < 0 then []
    else
      var split := Categorized(dict, followMap, idx);
      var shuffledNew := Shuffle(split.currentItems, rolls.newRolls);
      var shuffledOld := Shuffle(split.oldItems, rolls.oldRolls);
      ShuffleMembers(split.currentItems, rolls.newRolls);
      ShuffleMembers(split.oldItems, rolls.oldRolls);
      InterleavedMembers(shuffledNew, shuffledOld, rolls.poolRolls);
      Interleaved(shuffledNew, shuffledOld, rolls.poolRolls)
  }

  lemma ShuffleMembers(s: string, rolls: seq<nat>)
    ensures forall c :: c in Shuffle(s, rolls) <==> c in s
  {
    forall c
      ensures c in Shuffle(s, rolls) <==> c in s
    {
      assert c in Shuffle(s, rolls) <==> c in multiset(Shuffle(s, rolls));
    }
  }

  /** The interleaved list starts with new characters, keeps every old one, and holds nothing else. */
  lemma InterleavedMembers(shuffledNew: string, shuffledOld: string, rolls: seq<nat>)
    ensures var r := Interleaved(shuffledNew, shuffledOld, rolls);
      && |r| == Min(PreviewListSize, |shuffledNew|) + (if shuffledNew == [] then 1 else 2) * |shuffledOld|
      && (forall k :: 0 <= k < Min(PreviewListSize, |shuffledNew|) ==> r[k] in shuffledNew)
      && (forall c :: c in r ==> c in shuffledNew || c in shuffledOld)
      && (forall c :: c in shuffledOld ==> c in r)
  {
    var r := Interleaved(shuffledNew, shuffledOld, rolls);
    var p := Min(PreviewListSize, |shuffledNew|);
    var pool := TrainingPool(shuffledNew, shuffledOld);
    InterleavedShape(shuffledNew, shuffledOld, rolls);
    TrainingPoolMembers(shuffledNew, shuffledOld);
    assert r == r[..p] + r[p..];
    forall k | 0 <= k < p
      ensures r[k] in shuffledNew
    {
      assert r[k] == shuffledNew[..p][k];
    }
    forall c | c in r
      ensures c in shuffledNew || c in shuffledOld
    {
      if c in r[p..] {
        assert c in multiset(pool);
      } else {
        assert c in shuffledNew[..p];
      }
    }
    forall c | c in shuffledOld
      ensures c in r
    {
      assert c in multiset(r[p..]);
    }
  }

  /** The cursor after handing out position `k` of a list of length `n`. */
  function NextCursor(k: nat, n: nat): (r: nat)
    requires k < n
    ensures r < n
    ensures k + 1 < n ==> r == k + 1
    ensures k + 1 == n ==> r == (if n > PreviewListSize then PreviewListSize else 0)
  {
    if k + 1 >= n then (if n > PreviewListSize then PreviewListSize else 0) else k + 1
  }

  /** The cursor after `t` characters were handed out from a freshly reset one. */
  function CursorAfter(t: nat, n: nat): (r: nat)
    requires n > 0
    ensures r < n
  {
    if t == 0 then 0 else NextCursor(CursorAfter(t - 1, n), n)
  }

  /**
   * The preview is handed out once; from then on the cursor cycles over
   * the positions after it (over the whole list when it is no longer than
   * the preview).
   */
  lemma {:induction false} CursorCycles(t: nat, n: nat)
    requires n > 0
    ensures CursorAfter(t, n) == if t < n then t
      else if n > PreviewListSize then PreviewListSize + (t - PreviewListSize) % (n - PreviewListSize)
      else t % n
  {
    if t > 0 {
      CursorCycles(t - 1, n);
      var c := CursorAfter(t - 1, n);
      if n > PreviewListSize {
        var p := n - PreviewListSize;
        if t == n {
          assert c == n - 1;
          ModUnique(p, p, 1, 0);
        } else if t > n {
          assert c == PreviewListSize + (t - 1 - PreviewListSize) % p;
          ModStep(t - 1 - PreviewListSize, p);
        }
      } else {
        if t == n {
          assert c == n - 1;
          ModUnique(n, n, 1, 0);
        } else if t > n {
          assert c == (t - 1) % n;
          ModStep(t - 1, n);
        }
      }
    }
  }

  /** Counting up modulo `m` wraps to 0 after `m - 1`. */
  lemma ModStep(q: nat, m: nat)
    requires m > 0
    ensures (q + 1) % m == if q % m + 1 == m then 0 else q % m + 1
  {
    var r, d := q % m, q / m;
    if r + 1 == m {
      ModUnique(q + 1, m, d + 1, 0);
    } else {
      ModUnique(q + 1, m, d, r + 1);
    }
  }

  /** The remainder is the only one below `m`. */
  lemma ModUnique(x: nat, m: nat, d: int, r: int)
    requires m > 0 && 0 <= r < m && x == d * m + r
    ensures x % m == r
  {
    var d', r' := x / m, x % m;
    assert x == d' * m + r';
    var k := d - d';
    MulSub(d, d', m);
    assert k * m == r' - r;
    if k > 0 {
      MulAtLeast(k, m);
    } else if k < 0 {
      MulAtLeast(-k, m);
      MulNeg(k, m);
    }
  }

  lemma MulSub(a: int, b: int, m: int)
    ensures (a - b) * m == a * m - b * m
  {
  }

  lemma MulNeg(a: int, m: int)
    ensures -a * m == -(a * m)
  {
  }

  lemma MulAtLeast(k: int, m: nat)
    requires k >= 1
    ensures k * m >= m
  {
    MulSub(k, 1, m);
  }

  /** The state of one `useProgressiveLogic` instance. */
  class ProgressiveLogic {
    const dict: Dict
    const followMap: map<string, seq<Pinyin>>
    /** The watched `currentProgressiveIndex`. */
    var progressiveIndex: int
    var currentIndex: nat
    var hanziList: string

    /**
     * The combination table is the one loaded from the dictionary, and the
     * cursor is a position of the list, or 0 while the list is empty.
     */
    ghost predicate Valid()
      reads this
    {
      && followMap == IndexOf(dict).followMap
      && if hanziList == [] then currentIndex == 0 else currentIndex < |hanziList|
    }

    /** The watcher runs once immediately. */
    constructor (dict: Dict, followMap: map<string, seq<Pinyin>>, idx: int, rolls: Rolls)
      requires followMap == IndexOf(dict).followMap
      ensures Valid()
      ensures this.dict == dict && this.followMap == followMap && progressiveIndex == idx
      ensures currentIndex == 0 && hanziList == HanziListFor(dict, followMap, idx, rolls)
    {
      this.dict := dict;
      this.followMap := followMap;
      progressiveIndex := idx;
      currentIndex := 0;
      hanziList := [];
      new;
      UpdateHanziList(rolls);
    }

    /** `updateHanziList`: rebuild the list for the current lesson index. */
    method UpdateHanziList(rolls: Rolls)
      modifies this
      ensures hanziList == HanziListFor(dict, followMap, progressiveIndex, rolls)
      ensures progressiveIndex == old(progressiveIndex) && currentIndex == old(currentIndex)
    {
      var idx := progressiveIndex;
      if idx < 0 {
        hanziList := [];
        return;
      }
      var currentItems, oldItems := CategorizeHanzi(dict, followMap, idx);
      var shuffledOld := Shuffle(oldItems, rolls.oldRolls);
      hanziList := InterleaveLists(Shuffle(currentItems, rolls.newRolls), shuffledOld, rolls.poolRolls);
    }

    /** A new lesson index: the watcher resets the cursor and rebuilds the list; an unchanged one does nothing. */
    method SetIndex(idx: int, rolls: Rolls)
      requires Valid()
      modifies this
      ensures Valid()
      ensures progressiveIndex == idx
      ensures idx == old(progressiveIndex) ==> hanziList == old(hanziList) && currentIndex == old(currentIndex)
      ensures idx != old(progressiveIndex) ==>
        currentIndex == 0 && hanziList == HanziListFor(dict, followMap, idx, rolls)
    {
      if idx != progressiveIndex {
        progressiveIndex := idx;
        currentIndex := 0;
        UpdateHanziList(rolls);
      }
    }

    /** `getNextChar`: the character under the cursor, or `""` when the list is empty. */
    method GetNextChar() returns (ch: string)
      requires Valid()
      modifies this`currentIndex
      ensures Valid()
      ensures hanziList == [] ==> ch == [] && currentIndex == old(currentIndex)
      ensures hanziList != [] ==>
        ch == [hanziList[old(currentIndex)]] && currentIndex == NextCursor(old(currentIndex), |hanziList|)
    {
      var loopStartIndex := PreviewListSize;
      var list := hanziList;
      if |list| == 0 {
        return [];
      }
      ch := [list[currentIndex]];
      var nextIdx := currentIndex + 1;
      if nextIdx >= |list| {
        nextIdx := if |list| > loopStartIndex then loopStartIndex else 0;
      }
      currentIndex := nextIdx;
    }
  }
}
