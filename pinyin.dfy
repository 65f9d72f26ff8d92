/**
 * The combination index of `src/utils/pinyin.ts`: the key lists of the
 * two-key scheme, and the three tables built once at load time from the
 * dictionary — `validCombines` (spelling to combination, a JavaScript
 * `Map` with its insertion order), `leadMap` and `followMap` (key to the
 * combinations that use it).
 */
module Pinyin {
  import opened Dictionary

  /** The order in which lessons unlock keys. */
  const ProgressiveKeys: seq<string> :=
    ["e", "d", "i", "u", "y", "zh", "sh", "l", "j", "h", "b", "a", "x", "ong", "ao", "g",
     "ei", "uo", "ai", "an", "w", "en", "t", "z", "ing", "m", "ang", "ian", "iao", "ou",
     "q", "ch", "eng", "n", "f", "uan", "k", "r", "ui", "in", "iang", "ie", "s", "o", "c",
     "p", "un", "iu", "ue", "ia", "er", "uai", "ua", "uang", "v", "iong", "ng"]

  /** Split in two halves only so that their distinctness is cheap to check. */
  const LeadKeysHead: seq<string> := ["b", "p", "m", "f", "d", "t", "n", "l", "g", "k", "h"]
  const LeadKeysTail: seq<string> := ["j", "q", "x", "zh", "ch", "sh", "r", "z", "c", "s", "y", "w"]
  const LeadKeys: seq<string> := LeadKeysHead + LeadKeysTail

  const SingleFollowKeys: seq<string> := ["a", "o", "e", "i", "u", "v"]

  /** Split in two halves only so that their distinctness is cheap to check. */
  const MultiFollowKeysHead: seq<string> :=
    ["ai", "ei", "ao", "ou", "an", "en", "ang", "eng", "er", "ia", "ie", "iao", "iu", "ian"]
  const MultiFollowKeysTail: seq<string> :=
    ["in", "iang", "ing", "ua", "uo", "uai", "ui", "uan", "un", "uang", "ong", "ve", "ue", "iong"]
  const MultiFollowKeys: seq<string> := MultiFollowKeysHead + MultiFollowKeysTail

  const FollowKeys: seq<string> := SingleFollowKeys + MultiFollowKeys

  /** `leadKeys.concat("")`: every lead key, then the empty (zero) lead. */
  const AllLeads: seq<string> := LeadKeys + [""]

  datatype KeySummary = KeySummary(
    leadCount: nat, followCount: nat, singleFollowCount: nat, multiFollowCount: nat)

  const PinyinSummary: KeySummary :=
    KeySummary(|LeadKeys|, |FollowKeys|, |SingleFollowKeys|, |MultiFollowKeys|)

  /** The follow keys are the single-vowel keys followed by the multi-vowel keys, and the summary counts them. */
  lemma SummaryCounts()
    ensures FollowKeys[..|SingleFollowKeys|] == SingleFollowKeys
    ensures FollowKeys[|SingleFollowKeys|..] == MultiFollowKeys
    ensures PinyinSummary.followCount
         == PinyinSummary.singleFollowCount + PinyinSummary.multiFollowCount
    ensures PinyinSummary == KeySummary(23, 34, 6, 28)
  {
  }

  /** One combination: `{ lead, follow, full }`. */
  datatype Pinyin = Pinyin(lead: string, follow: string, full: string)

  /** `getCombineOf`: the spelling of the pair, from which the lead and the follow are read back. */
  function GetCombineOf(p: Pinyin): (r: string)
    ensures |r| == |p.lead| + |p.follow|
    ensures r[..|p.lead|] == p.lead && r[|p.lead|..] == p.follow
    ensures p.full == p.lead + p.follow ==> r == p.full
  {
    p.lead + p.follow
  }

  /** Which half of a combination a table is keyed by. */
  datatype Role = Lead | Follow

  function KeyOf(p: Pinyin, role: Role): string {
    match role
    case Lead => p.lead
    case Follow => p.follow
  }

  // ---------------------------------------------------------------------
  // What the product loop discovers
  // ---------------------------------------------------------------------

  /** The pairs `(lead, f)`, `f` taken from `follows` in order, whose spelling is a dictionary key. */
  function CombosOfLead(dict: Dict, lead: string, follows: seq<string>): seq<Pinyin>
    decreases |follows|
  {
    if follows == [] then []
    else
      var f := follows[|follows| - 1];
      CombosOfLead(dict, lead, follows[..|follows| - 1])
        + (if HasKey(dict, lead + f) then [Pinyin(lead, f, lead + f)] else [])
  }

  /** The valid pairs of the lead-outer product of `leads` and `follows`, in product order. */
  function Combos(dict: Dict, leads: seq<string>, follows: seq<string>): seq<Pinyin>
    decreases |leads|
  {
    if leads == [] then []
    else Combos(dict, leads[..|leads| - 1], follows) + CombosOfLead(dict, leads[|leads| - 1], follows)
  }

  /** Every combination the product loop accepts, in the order it accepts them. */
  function Discovered(dict: Dict): seq<Pinyin> {
    Combos(dict, AllLeads, FollowKeys)
  }

  /** A combination is accepted by the product loop exactly when both keys are listed and its spelling is a key. */
  predicate Accepted(dict: Dict, leads: seq<string>, follows: seq<string>, p: Pinyin) {
    p.lead in leads && p.follow in follows && p.full == p.lead + p.follow && HasKey(dict, p.full)
  }

  lemma {:induction false} CombosOfLeadMember(dict: Dict, lead: string, follows: seq<string>, p: Pinyin)
    ensures p in CombosOfLead(dict, lead, follows) <==> p.lead == lead && Accepted(dict, [lead], follows, p)
    decreases |follows|
  {
    if follows != [] {
      CombosOfLeadMember(dict, lead, follows[..|follows| - 1], p);
      assert follows == follows[..|follows| - 1] + [follows[|follows| - 1]];
    }
  }

  lemma {:induction false} CombosMember(dict: Dict, leads: seq<string>, follows: seq<string>, p: Pinyin)
    ensures p in Combos(dict, leads, follows) <==> Accepted(dict, leads, follows, p)
    decreases |leads|
  {
    if leads != [] {
      CombosMember(dict, leads[..|leads| - 1], follows, p);
      CombosOfLeadMember(dict, leads[|leads| - 1], follows, p);
      assert leads == leads[..|leads| - 1] + [leads[|leads| - 1]];
    }
  }

  /** A pair enters `validCombines` iff its lead is a lead key or empty, its follow a follow key, and its spelling a dictionary key. */
  lemma DiscoveredIff(dict: Dict, p: Pinyin)
    ensures p in Discovered(dict) <==>
      && (p.lead in LeadKeys || p.lead == "")
      && p.follow in FollowKeys
      && p.full == p.lead + p.follow
      && HasKey(dict, p.full)
  {
    CombosMember(dict, AllLeads, FollowKeys, p);
  }

  /** `getCombineOf` gives back the stored spelling of every discovered combination. */
  lemma CombineOfDiscovered(dict: Dict, p: Pinyin)
    requires p in Discovered(dict)
    ensures GetCombineOf(p) == p.full
  {
    DiscoveredIff(dict, p);
  }

  // ---------------------------------------------------------------------
  // The spelling determines the pair
  // ---------------------------------------------------------------------

  predicate IsVowel(c: char) {
    c in "aoeiuv"
  }

  predicate NoVowel(s: string) {
    forall i :: 0 <= i < |s| ==> !IsVowel(s[i])
  }

  predicate VowelInitial(s: string) {
    |s| > 0 && IsVowel(s[0])
  }

  /** In a vowel-free lead followed by a vowel-initial follow, the first vowel sits right after the lead. */
  lemma FirstVowelAfterLead(l: string, f: string)
    requires NoVowel(l) && VowelInitial(f)
    ensures forall i :: 0 <= i < |l| ==> !IsVowel((l + f)[i])
    ensures IsVowel((l + f)[|l|])
  {
  }

  /** A vowel-free lead followed by a vowel-initial follow can be split back in only one way. */
  lemma SpellingDeterminesPair(l1: string, f1: string, l2: string, f2: string)
    requires NoVowel(l1) && NoVowel(l2) && VowelInitial(f1) && VowelInitial(f2)
    requires l1 + f1 == l2 + f2
    ensures l1 == l2 && f1 == f2
  {
    FirstVowelAfterLead(l1, f1);
    FirstVowelAfterLead(l2, f2);
    assert |l1| == |l2|;
    assert l1 == (l1 + f1)[..|l1|];
    assert l2 == (l2 + f2)[..|l2|];
    assert f1 == (l1 + f1)[|l1|..];
    assert f2 == (l2 + f2)[|l2|..];
  }

  predicate Distinct(s: seq<string>) {
    forall i, j :: 0 <= i < j < |s| ==> s[i] != s[j]
  }

  /** No two (lead, follow) pairs drawn from the lists share a spelling. */
  predicate Injective(leads: seq<string>, follows: seq<string>) {
    forall l1, f1, l2, f2 ::
      (l1 in leads && l2 in leads && f1 in follows && f2 in follows && l1 + f1 == l2 + f2)
        ==> l1 == l2 && f1 == f2
  }

  lemma DistinctConcat(s: seq<string>, t: seq<string>)
    requires Distinct(s) && Distinct(t)
    requires forall i, j :: 0 <= i < |s| && 0 <= j < |t| ==> s[i] != t[j]
    ensures Distinct(s + t)
  {
  }

  lemma LeadKeysShape()
    ensures Distinct(AllLeads)
    ensures forall l :: l in AllLeads ==> NoVowel(l)
  {
    LeadsDistinct();
    LeadsVowelFree();
  }

  lemma LeadsDistinct()
    ensures Distinct(AllLeads)
  {
    var head, tail := LeadKeysHead, LeadKeysTail + [""];
    assert Distinct(head);
    assert Distinct(tail);
    assert forall i, j :: 0 <= i < |head| && 0 <= j < |tail| ==> head[i] != tail[j];
    DistinctConcat(head, tail);
    assert AllLeads == head + tail;
  }

  lemma LeadsVowelFree()
    ensures forall i :: 0 <= i < |AllLeads| ==> NoVowel(AllLeads[i])
  {
    var leads := AllLeads;
    forall i | 0 <= i < |leads|
      ensures NoVowel(leads[i])
    {
      assert |leads[i]| <= 2;
    }
  }

  lemma FollowKeysShape()
    ensures Distinct(FollowKeys)
    ensures forall f :: f in FollowKeys ==> VowelInitial(f)
  {
    FollowsDistinct();
    FollowsVowelInitial();
  }

  lemma FollowsDistinct()
    ensures Distinct(FollowKeys)
  {
    DistinctConcat(MultiFollowKeysHead, MultiFollowKeysTail);
    assert forall i :: 0 <= i < |SingleFollowKeys| ==> |SingleFollowKeys[i]| == 1;
    assert forall i :: 0 <= i < |MultiFollowKeys| ==> |MultiFollowKeys[i]| >= 2;
    DistinctConcat(SingleFollowKeys, MultiFollowKeys);
  }

  lemma FollowsVowelInitial()
    ensures forall i :: 0 <= i < |FollowKeys| ==> VowelInitial(FollowKeys[i])
  {
    var follows := FollowKeys;
    forall i | 0 <= i < |follows|
      ensures VowelInitial(follows[i])
    {
    }
  }

  /** The scheme's key lists never give two pairs the same spelling. */
  lemma KeyListsInjective()
    ensures Injective(AllLeads, FollowKeys)
  {
    LeadKeysShape();
    FollowKeysShape();
    forall l1, f1, l2, f2 |
      l1 in AllLeads && l2 in AllLeads && f1 in FollowKeys && f2 in FollowKeys && l1 + f1 == l2 + f2
      ensures l1 == l2 && f1 == f2
    {
      SpellingDeterminesPair(l1, f1, l2, f2);
    }
  }

  predicate DistinctSpellings(s: seq<Pinyin>) {
    forall i, j :: 0 <= i < j < |s| ==> s[i].full != s[j].full
  }

  lemma {:induction false} CombosOfLeadDistinct(dict: Dict, lead: string, leads: seq<string>, follows: seq<string>)
    requires lead in leads && Distinct(follows) && Injective(leads, follows)
    ensures DistinctSpellings(CombosOfLead(dict, lead, follows))
    decreases |follows|
  {
    if follows != [] {
      var init, f := follows[..|follows| - 1], follows[|follows| - 1];
      var front := CombosOfLead(dict, lead, init);
      CombosOfLeadDistinct(dict, lead, leads, init);
      forall q | q in front
        ensures q.full != lead + f
      {
        CombosOfLeadMember(dict, lead, init, q);
        assert f !in init;
      }
    }
  }

  lemma {:induction false} CombosDistinct(dict: Dict, leads: seq<string>, follows: seq<string>)
    requires Distinct(leads) && Distinct(follows) && Injective(leads, follows)
    ensures DistinctSpellings(Combos(dict, leads, follows))
    decreases |leads|
  {
    if leads != [] {
      var init, l := leads[..|leads| - 1], leads[|leads| - 1];
      var front, back := Combos(dict, init, follows), CombosOfLead(dict, l, follows);
      assert Injective(init, follows);
      CombosDistinct(dict, init, follows);
      CombosOfLeadDistinct(dict, l, leads, follows);
      forall i, j | 0 <= i < |front| && 0 <= j < |back|
        ensures front[i].full != back[j].full
      {
        CombosMember(dict, init, follows, front[i]);
        CombosOfLeadMember(dict, l, follows, back[j]);
        assert l !in init;
      }
    }
  }

  /** No two discovered combinations share a spelling. */
  lemma DiscoveredDistinct(dict: Dict)
    ensures DistinctSpellings(Discovered(dict))
  {
    LeadKeysShape();
    FollowKeysShape();
    KeyListsInjective();
    CombosDistinct(dict, AllLeads, FollowKeys);
  }

  // ---------------------------------------------------------------------
  // The tables, as values
  // ---------------------------------------------------------------------

  /** `pushMap`: append `v` to the list under `k`, creating an empty list first. */
  function PushMap(m: map<string, seq<Pinyin>>, k: string, v: Pinyin): (r: map<string, seq<Pinyin>>)
    ensures r.Keys == m.Keys + {k}
    ensures r[k] == (if k in m then m[k] else []) + [v]
    ensures forall k' :: k' in m && k' != k ==> r[k'] == m[k']
  {
    m[k := (if k in m then m[k] else []) + [v]]
  }

  /** The list under `k` in `m`, or `[]`. */
  function Get(m: map<string, seq<Pinyin>>, k: string): seq<Pinyin> {
    if k in m then m[k] else []
  }

  /** `m` after `pushMap` of each combination of `s` in order, under its key in `role`. */
  function Group(m: map<string, seq<Pinyin>>, s: seq<Pinyin>, role: Role): map<string, seq<Pinyin>>
    decreases |s|
  {
    if s == [] then m
    else
      var p := s[|s| - 1];
      PushMap(Group(m, s[..|s| - 1], role), KeyOf(p, role), p)
  }

  /** The combinations of `s` whose key in `role` is `k`, in order. */
  function Matching(s: seq<Pinyin>, role: Role, k: string): seq<Pinyin>
    decreases |s|
  {
    if s == [] then []
    else Matching(s[..|s| - 1], role, k) + (if KeyOf(s[|s| - 1], role) == k then [s[|s| - 1]] else [])
  }

  lemma {:induction false} MatchingMember(s: seq<Pinyin>, role: Role, k: string, p: Pinyin)
    ensures p in Matching(s, role, k) <==> p in s && KeyOf(p, role) == k
    ensures multiset(Matching(s, role, k))[p] == if KeyOf(p, role) == k then multiset(s)[p] else 0
    decreases |s|
  {
    if s != [] {
      var init, last := s[..|s| - 1], s[|s| - 1];
      MatchingMember(init, role, k, p);
      assert s == init + [last];
      assert multiset(s) == multiset(init) + multiset{last};
      var tail := if KeyOf(last, role) == k then [last] else [];
      assert Matching(s, role, k) == Matching(init, role, k) + tail;
      assert multiset(Matching(s, role, k)) == multiset(Matching(init, role, k)) + multiset(tail);
    }
  }

  /** Grouping appends, under each key, exactly the matching combinations, in order. */
  lemma {:induction false} GroupAt(m: map<string, seq<Pinyin>>, s: seq<Pinyin>, role: Role, k: string)
    ensures k in Group(m, s, role) <==> k in m || Matching(s, role, k) != []
    ensures Get(Group(m, s, role), k) == Get(m, k) + Matching(s, role, k)
    decreases |s|
  {
    if s != [] {
      GroupAt(m, s[..|s| - 1], role, k);
    }
  }

  /** The keys of `validCombines`, in the order `Map.set` first inserted them. */
  function Spellings(s: seq<Pinyin>): seq<string>
    decreases |s|
  {
    if s == [] then []
    else
      var o := Spellings(s[..|s| - 1]);
      if s[|s| - 1].full in o then o else o + [s[|s| - 1].full]
  }

  /** `validCombines` after `set(p.full, p)` for each `p` of `s`: the last write wins. */
  function Combines(s: seq<Pinyin>): map<string, Pinyin>
    decreases |s|
  {
    if s == [] then map[] else Combines(s[..|s| - 1])[s[|s| - 1].full := s[|s| - 1]]
  }

  lemma {:induction false} SpellingsAreKeys(s: seq<Pinyin>)
    ensures forall k :: k in Spellings(s) <==> k in Combines(s)
    decreases |s|
  {
    if s != [] {
      SpellingsAreKeys(s[..|s| - 1]);
    }
  }

  /** The four tables: `validCombines` with its key order, `leadMap` and `followMap`. */
  datatype CombinationIndex = CombinationIndex(
    validCombines: map<string, Pinyin>,
    combineOrder: seq<string>,
    leadMap: map<string, seq<Pinyin>>,
    followMap: map<string, seq<Pinyin>>)

  /** The tables after the product loop has accepted the combinations `s`, in order. */
  function FirstPass(s: seq<Pinyin>): CombinationIndex {
    CombinationIndex(Combines(s), Spellings(s), Group(map[], s, Lead), Group(map[], s, Follow))
  }

  /** What `validCombines.forEach` visits: the stored value of each key, in key order. */
  function Revisited(s: seq<Pinyin>): (r: seq<Pinyin>)
    ensures |r| == |Spellings(s)|
  {
    SpellingsAreKeys(s);
    var order, vc := Spellings(s), Combines(s);
    seq(|order|, i requires 0 <= i < |order| => vc[order[i]])
  }

  /** The tables as the module leaves them once loaded: the second pass pushes every stored combination again. */
  function IndexOf(dict: Dict): CombinationIndex {
    var found := Discovered(dict);
    var first := FirstPass(found);
    CombinationIndex(
      first.validCombines,
      first.combineOrder,
      Group(first.leadMap, Revisited(found), Lead),
      Group(first.followMap, Revisited(found), Follow))
  }

  lemma CombosOfLeadStep(dict: Dict, lead: string, follows: seq<string>, j: nat)
    requires j < |follows|
    ensures CombosOfLead(dict, lead, follows[..j + 1])
         == CombosOfLead(dict, lead, follows[..j])
          + (if HasKey(dict, lead + follows[j]) then [Pinyin(lead, follows[j], lead + follows[j])] else [])
  {
    assert follows[..j + 1][..j] == follows[..j];
  }

  /** The combinations accepted once the row has reached follow `j + 1`. */
  lemma RowNext(dict: Dict, lead: string, follows: seq<string>, before: seq<Pinyin>, j: nat)
    requires j < |follows|
    ensures var seen := before + CombosOfLead(dict, lead, follows[..j]);
      before + CombosOfLead(dict, lead, follows[..j + 1])
        == if HasKey(dict, lead + follows[j]) then seen + [Pinyin(lead, follows[j], lead + follows[j])] else seen
  {
    CombosOfLeadStep(dict, lead, follows, j);
  }

  /** One accepted combination: `validCombines.set`, then a push onto its lead and follow lists. */
  lemma FirstPassStep(s: seq<Pinyin>, p: Pinyin)
    ensures var ix := FirstPass(s);
      FirstPass(s + [p]) == CombinationIndex(
        ix.validCombines[p.full := p],
        if p.full in ix.validCombines then ix.combineOrder else ix.combineOrder + [p.full],
        PushMap(ix.leadMap, p.lead, p),
        PushMap(ix.followMap, p.follow, p))
  {
    assert (s + [p])[..|s|] == s;
    SpellingsAreKeys(s);
  }

  /**
   * One lead's row of the product loop: each pair `(lead, follow)` whose
   * spelling is a dictionary key is set in `validCombines` and pushed onto
   * its lead and follow lists.
   */
  method ProductRow(dict: Dict, lead: string, ix: CombinationIndex, ghost before: seq<Pinyin>)
    returns (ix': CombinationIndex)
    requires ix == FirstPass(before)
    ensures ix' == FirstPass(before + CombosOfLead(dict, lead, FollowKeys))
  {
    var validCombines, order, leadMap, followMap := ix.validCombines, ix.combineOrder, ix.leadMap, ix.followMap;
    assert before + CombosOfLead(dict, lead, FollowKeys[..0]) == before;
    for j := 0 to |FollowKeys|
      invariant CombinationIndex(validCombines, order, leadMap, followMap)
             == FirstPass(before + CombosOfLead(dict, lead, FollowKeys[..j]))
    {
      var follow := FollowKeys[j];
      var fullPinyin := lead + follow;
      var pinyin := Pinyin(lead, follow, fullPinyin);
      ghost var seen := before + CombosOfLead(dict, lead, FollowKeys[..j]);
      RowNext(dict, lead, FollowKeys, before, j);
      if HasKey(dict, fullPinyin) {
        FirstPassStep(seen, pinyin);
        if fullPinyin !in validCombines {
          order := order + [fullPinyin];
        }
        validCombines := validCombines[fullPinyin := pinyin];
        // the inline `has`/`set`/`push` of the product loop is `pushMap`'s body
        leadMap := PushMap(leadMap, lead, pinyin);
        followMap := PushMap(followMap, follow, pinyin);
      }
    }
    assert FollowKeys[..|FollowKeys|] == FollowKeys;
    ix' := CombinationIndex(validCombines, order, leadMap, followMap);
  }

  /**
   * The product loop over `leadKeys.concat("")` and `followKeys`.
   * `product` (not part of this model) is taken to enumerate leads outer,
   * follows inner.
   */
  method ProductPass(dict: Dict) returns (ix: CombinationIndex)
    ensures ix == FirstPass(Discovered(dict))
  {
    ix := CombinationIndex(map[], [], map[], map[]);
    var leads := AllLeads;
    for i := 0 to |leads|
      invariant ix == FirstPass(Combos(dict, leads[..i], FollowKeys))
    {
      assert leads[..i + 1][..i] == leads[..i];
      ix := ProductRow(dict, leads[i], ix, Combos(dict, leads[..i], FollowKeys));
    }
    assert leads[..|leads|] == leads;
  }

  /**
   * The load-time code of the module: the product loop, then the second
   * pass, which pushes every value of `validCombines`, in key order, onto
   * the same lists again through `pushMap`.
   */
  method BuildCombinationIndex(dict: Dict) returns (ix: CombinationIndex)
    ensures ix == IndexOf(dict)
  {
    ix := ProductPass(dict);
    ix := RevisitPass(ix, Discovered(dict));
  }

  /** The second pass: push each stored combination, in key order, onto its lead and follow lists. */
  method RevisitPass(ix: CombinationIndex, ghost found: seq<Pinyin>) returns (ix': CombinationIndex)
    requires ix.validCombines == Combines(found) && ix.combineOrder == Spellings(found)
    ensures ix' == CombinationIndex(ix.validCombines, ix.combineOrder,
      Group(ix.leadMap, Revisited(found), Lead), Group(ix.followMap, Revisited(found), Follow))
  {
    var validCombines, order, leadMap, followMap := ix.validCombines, ix.combineOrder, ix.leadMap, ix.followMap;
    ghost var again := Revisited(found);
    for k := 0 to |order|
      invariant leadMap == Group(ix.leadMap, again[..k], Lead)
      invariant followMap == Group(ix.followMap, again[..k], Follow)
    {
      RevisitedAt(found, k);
      var v := validCombines[order[k]];
      GroupSnoc(ix.leadMap, again[..k], v, Lead);
      GroupSnoc(ix.followMap, again[..k], v, Follow);
      assert again[..k + 1] == again[..k] + [v];
      leadMap := PushMap(leadMap, v.lead, v);
      followMap := PushMap(followMap, v.follow, v);
    }
    assert again[..|order|] == again;
    ix' := CombinationIndex(validCombines, order, leadMap, followMap);
  }

  /** The `k`-th combination the second pass visits is the one stored under the `k`-th key. */
  lemma RevisitedAt(s: seq<Pinyin>, k: nat)
    requires k < |Spellings(s)|
    ensures Spellings(s)[k] in Combines(s) && Revisited(s)[k] == Combines(s)[Spellings(s)[k]]
  {
    SpellingsAreKeys(s);
  }

  lemma GroupSnoc(m: map<string, seq<Pinyin>>, s: seq<Pinyin>, p: Pinyin, role: Role)
    ensures Group(m, s + [p], role) == PushMap(Group(m, s, role), KeyOf(p, role), p)
  {
    assert (s + [p])[..|s|] == s;
  }

  // ---------------------------------------------------------------------
  // What the tables hold
  // ---------------------------------------------------------------------

  lemma {:induction false} SpellingsDistinct(s: seq<Pinyin>)
    requires DistinctSpellings(s)
    ensures Spellings(s) == seq(|s|, i requires 0 <= i < |s| => s[i].full)
    decreases |s|
  {
    if s != [] {
      var init := s[..|s| - 1];
      SpellingsDistinct(init);
      assert s[|s| - 1].full !in Spellings(init);
    }
  }

  lemma {:induction false} CombinesDistinct(s: seq<Pinyin>, i: nat)
    requires DistinctSpellings(s) && i < |s|
    ensures s[i].full in Combines(s) && Combines(s)[s[i].full] == s[i]
    decreases |s|
  {
    if i < |s| - 1 {
      CombinesDistinct(s[..|s| - 1], i);
    }
  }

  /** When spellings are distinct, the second pass visits the combinations again in discovery order. */
  lemma RevisitDistinct(s: seq<Pinyin>)
    requires DistinctSpellings(s)
    ensures Revisited(s) == s
  {
    SpellingsDistinct(s);
    forall i | 0 <= i < |s|
      ensures Revisited(s)[i] == s[i]
    {
      CombinesDistinct(s, i);
    }
  }

  lemma {:induction false} CombinesMember(s: seq<Pinyin>, k: string)
    requires k in Combines(s)
    ensures Combines(s)[k] in s && Combines(s)[k].full == k
    decreases |s|
  {
    if s[|s| - 1].full != k {
      CombinesMember(s[..|s| - 1], k);
    }
  }

  /**
   * `validCombines` holds exactly the discovered spellings, each under its
   * own spelling, in discovery order; every stored record spells
   * `lead + follow`.
   */
  lemma ValidCombinesShape(dict: Dict)
    ensures var ix := IndexOf(dict);
      && ix.combineOrder == seq(|Discovered(dict)|, i requires 0 <= i < |Discovered(dict)| => Discovered(dict)[i].full)
      && (forall k :: k in ix.validCombines ==>
            ix.validCombines[k].full == k
            && ix.validCombines[k].full == ix.validCombines[k].lead + ix.validCombines[k].follow
            && ix.validCombines[k] in Discovered(dict))
      && (forall p :: p in Discovered(dict) ==> p.full in ix.validCombines && ix.validCombines[p.full] == p)
  {
    var found := Discovered(dict);
    DiscoveredDistinct(dict);
    SpellingsDistinct(found);
    forall k | k in Combines(found)
      ensures Combines(found)[k].full == k
      ensures Combines(found)[k].full == Combines(found)[k].lead + Combines(found)[k].follow
      ensures Combines(found)[k] in found
    {
      CombinesMember(found, k);
      DiscoveredIff(dict, Combines(found)[k]);
    }
    forall p | p in found
      ensures p.full in Combines(found) && Combines(found)[p.full] == p
    {
      var i :| 0 <= i < |found| && found[i] == p;
      CombinesDistinct(found, i);
    }
  }

  /** The table of `ix` keyed by `role`: `leadMap` or `followMap`. */
  function Table(ix: CombinationIndex, role: Role): map<string, seq<Pinyin>> {
    if role == Lead then ix.leadMap else ix.followMap
  }

  lemma TableOfIndex(dict: Dict, role: Role)
    ensures Table(IndexOf(dict), role)
         == Group(Group(map[], Discovered(dict), role), Revisited(Discovered(dict)), role)
  {
  }

  /**
   * Because of the second pass, the list under each key is the key's
   * combinations in discovery order, twice over.
   */
  lemma ListsRepeatDiscovery(dict: Dict, role: Role, k: string)
    ensures k in Table(IndexOf(dict), role) <==> Matching(Discovered(dict), role, k) != []
    ensures Get(Table(IndexOf(dict), role), k)
         == Matching(Discovered(dict), role, k) + Matching(Discovered(dict), role, k)
  {
    DiscoveredDistinct(dict);
    TableOfIndex(dict, role);
    GroupTwice(Discovered(dict), role, k);
  }

  /** Grouping distinct combinations and then their revisit lists each one twice under its key. */
  lemma GroupTwice(s: seq<Pinyin>, role: Role, k: string)
    requires DistinctSpellings(s)
    ensures k in Group(Group(map[], s, role), Revisited(s), role) <==> Matching(s, role, k) != []
    ensures Get(Group(Group(map[], s, role), Revisited(s), role), k) == Matching(s, role, k) + Matching(s, role, k)
  {
    var once := Group(map[], s, role);
    RevisitDistinct(s);
    GroupAt(map[], s, role, k);
    assert Get(once, k) == Matching(s, role, k);
    GroupAt(once, s, role, k);
  }

  /**
   * `leadMap` and `followMap` have a key exactly when some discovered
   * combination uses it; every stored list is non-empty and holds only
   * combinations with that key; each discovered combination is listed
   * exactly twice.
   */
  lemma KeyedListsShape(dict: Dict, role: Role, k: string)
    ensures var m := Table(IndexOf(dict), role);
      && (k in m <==> exists p :: p in Discovered(dict) && KeyOf(p, role) == k)
      && (k in m ==> m[k] != [] && forall p :: p in m[k] ==> p in Discovered(dict) && KeyOf(p, role) == k)
      && (forall p :: p in Discovered(dict) && KeyOf(p, role) == k ==> multiset(Get(m, k))[p] == 2)
  {
    var found := Discovered(dict);
    var m := Table(IndexOf(dict), role);
    DiscoveredDistinct(dict);
    ListsRepeatDiscovery(dict, role, k);
    forall p | p in found && KeyOf(p, role) == k
      ensures p in Matching(found, role, k)
      ensures multiset(Get(m, k))[p] == 2
    {
      MatchingMember(found, role, k, p);
      var i :| 0 <= i < |found| && found[i] == p;
      OccursOnce(found, i);
    }
    forall p | p in Get(m, k)
      ensures p in found && KeyOf(p, role) == k
    {
      MatchingMember(found, role, k, p);
    }
    if Matching(found, role, k) != [] {
      var p := Matching(found, role, k)[0];
      MatchingMember(found, role, k, p);
    }
  }

  /** With distinct spellings every combination occurs once. */
  lemma {:induction false} OccursOnce(s: seq<Pinyin>, i: nat)
    requires DistinctSpellings(s) && i < |s|
    ensures multiset(s)[s[i]] == 1
    decreases |s|
  {
    var init := s[..|s| - 1];
    assert s == init + [s[|s| - 1]];
    if i < |s| - 1 {
      OccursOnce(init, i);
      assert s[|s| - 1] != s[i];
    } else {
      assert s[i] !in init;
    }
  }
}
