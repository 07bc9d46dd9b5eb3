// Suggested tags, the client's selection of them, and the server's check of that selection.

module CompanionTags {
  import opened Text

  const TAG_MAX_COUNT: nat := 5

  // ---- ordered subsequences --------------------------------------------------------------

  /** Strictly increasing positions in `eligible` that spell out `submitted`. */
  predicate Spells(positions: seq<nat>, submitted: seq<string>, eligible: seq<string>) {
    && |positions| == |submitted|
    && (forall i :: 0 <= i < |positions| ==> positions[i] < |eligible| && eligible[positions[i]] == submitted[i])
    && (forall i, j :: 0 <= i < j < |positions| ==> positions[i] < positions[j])
  }

  ghost predicate Embeds(submitted: seq<string>, eligible: seq<string>) {
    exists positions :: Spells(positions, submitted, eligible)
  }

  /** The same, read from the front. */
  predicate Subsequence(submitted: seq<string>, eligible: seq<string>) {
    if submitted == [] then true
    else if eligible == [] then false
    else if submitted[0] == eligible[0] then Subsequence(submitted[1..], eligible[1..])
    else Subsequence(submitted, eligible[1..])
  }

  lemma {:induction false} SubsequenceEmbeds(submitted: seq<string>, eligible: seq<string>)
    requires Subsequence(submitted, eligible)
    ensures Embeds(submitted, eligible)
  {
    if submitted == [] {
      assert Spells([], submitted, eligible);
    } else if submitted[0] == eligible[0] {
      SubsequenceEmbeds(submitted[1..], eligible[1..]);
      var rest :| Spells(rest, submitted[1..], eligible[1..]);
      var positions := [0] + seq(|rest|, i requires 0 <= i < |rest| => rest[i] + 1);
      assert Spells(positions, submitted, eligible);
    } else {
      SubsequenceEmbeds(submitted, eligible[1..]);
      var rest :| Spells(rest, submitted, eligible[1..]);
      var positions := seq(|rest|, i requires 0 <= i < |rest| => rest[i] + 1);
      assert Spells(positions, submitted, eligible);
    }
  }

  lemma {:induction false} EmbedsSubsequence(positions: seq<nat>, submitted: seq<string>, eligible: seq<string>)
    requires Spells(positions, submitted, eligible)
    ensures Subsequence(submitted, eligible)
    decreases |eligible|
  {
    if submitted != [] {
      assert eligible[positions[0]] == submitted[0];
      var down := seq(|positions|,
                      i requires 0 <= i < |positions| => if positions[i] == 0 then 0 else positions[i] - 1);
      if submitted[0] == eligible[0] {
        forall i | 1 <= i < |positions|
          ensures positions[i] >= 1
        {
          assert positions[0] < positions[i];
        }
        assert Spells(down[1..], submitted[1..], eligible[1..]);
        EmbedsSubsequence(down[1..], submitted[1..], eligible[1..]);
      } else {
        assert positions[0] >= 1;
        forall i | 0 <= i < |positions|
          ensures positions[i] >= 1
        {
          assert i > 0 ==> positions[0] < positions[i];
        }
        assert Spells(down, submitted, eligible[1..]);
        EmbedsSubsequence(down, submitted, eligible[1..]);
      }
    }
  }

  lemma {:induction false} LongerEligible(submitted: seq<string>, skipped: seq<string>, eligible: seq<string>)
    requires Subsequence(submitted, eligible)
    ensures Subsequence(submitted, skipped + eligible)
    decreases |skipped| + |eligible|, 0
  {
    if skipped == [] {
      assert skipped + eligible == eligible;
    } else {
      LongerEligible(submitted, skipped[1..], eligible);
      assert (skipped + eligible)[1..] == skipped[1..] + eligible;
      if submitted != [] && submitted[0] == skipped[0] {
        FewerSubmitted(submitted, (skipped + eligible)[1..]);
      }
    }
  }

  lemma {:induction false} FewerSubmitted(submitted: seq<string>, eligible: seq<string>)
    requires submitted != [] && Subsequence(submitted, eligible)
    ensures Subsequence(submitted[1..], eligible)
    decreases |eligible|, 1
  {
    if submitted[0] == eligible[0] {
      LongerEligible(submitted[1..], [eligible[0]], eligible[1..]);
      assert [eligible[0]] + eligible[1..] == eligible;
    } else {
      FewerSubmitted(submitted, eligible[1..]);
      LongerEligible(submitted[1..], [eligible[0]], eligible[1..]);
      assert [eligible[0]] + eligible[1..] == eligible;
    }
  }

  /** `is_ordered_subsequence`: greedy, and right exactly when some order-preserving embedding exists. */
  method IsOrderedSubsequence(submitted: seq<string>, eligible: seq<string>) returns (found: bool)
    ensures found <==> Embeds(submitted, eligible)
  {
    var index := 0;
    for i := 0 to |submitted|
      invariant 0 <= index <= |eligible|
      invariant Subsequence(submitted, eligible) <==> Subsequence(submitted[i..], eligible[index..])
    {
      found := false;
      while index < |eligible| && !found
        invariant 0 <= index <= |eligible|
        invariant Subsequence(submitted, eligible)
                  <==> Subsequence(if found then submitted[i + 1..] else submitted[i..], eligible[index..])
      {
        found := eligible[index] == submitted[i];
        index := index + 1;
      }
      if !found {
        if Embeds(submitted, eligible) {
          var positions :| Spells(positions, submitted, eligible);
          EmbedsSubsequence(positions, submitted, eligible);
        }
        return false;
      }
    }
    SubsequenceEmbeds(submitted, eligible);
    found := true;
  }

  // ---- mapping suggested tags ----------------------------------------------------------------

  datatype Tag = Tag(key: string, displayName: string)

  datatype Status = Mapped | Unknown | Ambiguous | Duplicate | LegacyLimit

  datatype MappedTag = MappedTag(value: string, status: Status, tag: Option<Tag>)

  /** What a suggested value names: `fold` stands for case folding. */
  datatype Verdict = Chosen(tag: Tag) | Many | Nothing

  function ByName(canonical: seq<Tag>, fold: string -> string, folded: string): seq<Tag> {
    if canonical == [] then []
    else
      ByName(canonical[..|canonical| - 1], fold, folded)
      + (if fold(canonical[|canonical| - 1].displayName) == folded then [canonical[|canonical| - 1]] else [])
  }

  function ByKey(canonical: seq<Tag>, fold: string -> string, folded: string): seq<Tag> {
    if canonical == [] then []
    else
      ByKey(canonical[..|canonical| - 1], fold, folded)
      + (if fold(canonical[|canonical| - 1].key) == folded then [canonical[|canonical| - 1]] else [])
  }

  /** The one tag of that display name, or failing any, the one of that key. */
  function Judge(canonical: seq<Tag>, fold: string -> string, folded: string): Verdict {
    var names, keys := ByName(canonical, fold, folded), ByKey(canonical, fold, folded);
    if |names| > 1 then Many
    else if |names| == 1 then Chosen(names[0])
    else if |keys| > 1 then Many
    else if |keys| == 1 then Chosen(keys[0])
    else Nothing
  }

  function JudgeAll(canonical: seq<Tag>, fold: string -> string, trim: string -> string,
                    suggested: seq<string>): seq<Verdict> {
    seq(|suggested|, i requires 0 <= i < |suggested| => Judge(canonical, fold, fold(trim(suggested[i]))))
  }

  /** The keys chosen so far, repetitions left out. */
  function Distinct(verdicts: seq<Verdict>): seq<string> {
    if verdicts == [] then []
    else
      var rest, last := Distinct(verdicts[..|verdicts| - 1]), verdicts[|verdicts| - 1];
      if last.Chosen? && last.tag.key !in rest then rest + [last.tag.key] else rest
  }

  /** The status a value gets from what it names and what was named before it. */
  function StatusOf(v: Verdict, before: seq<string>): Status {
    match v
    case Many => Ambiguous
    case Nothing => Unknown
    case Chosen(tag) =>
      if tag.key in before then Duplicate else if |before| >= TAG_MAX_COUNT then LegacyLimit else Mapped
  }

  function MapOne(value: string, v: Verdict, before: seq<string>): MappedTag {
    MappedTag(value, StatusOf(v, before), if v.Chosen? then Some(v.tag) else None)
  }

  function MapAll(suggested: seq<string>, verdicts: seq<Verdict>): seq<MappedTag>
    requires |verdicts| == |suggested|
  {
    if suggested == [] then []
    else
      var n := |suggested| - 1;
      MapAll(suggested[..n], verdicts[..n]) + [MapOne(suggested[n], verdicts[n], Distinct(verdicts[..n]))]
  }

  /** `eligible_mapped_tag_keys`. */
  function Eligible(mapped: seq<MappedTag>): seq<string> {
    if mapped == [] then []
    else
      var last := mapped[|mapped| - 1];
      Eligible(mapped[..|mapped| - 1]) + (if last.status.Mapped? && last.tag.Some? then [last.tag.value.key] else [])
  }

  function FirstFive(keys: seq<string>): seq<string> {
    if |keys| <= TAG_MAX_COUNT then keys else keys[..TAG_MAX_COUNT]
  }

  predicate NoRepeats(keys: seq<string>) {
    forall i, j :: 0 <= i < j < |keys| ==> keys[i] != keys[j]
  }

  lemma {:induction false} DistinctHasNoRepeats(verdicts: seq<Verdict>)
    ensures NoRepeats(Distinct(verdicts))
  {
    if verdicts != [] {
      DistinctHasNoRepeats(verdicts[..|verdicts| - 1]);
    }
  }

  /** The eligible keys are the first five different keys named, in the order they were first named. */
  lemma {:induction false} EligibleAreTheFirstFive(suggested: seq<string>, verdicts: seq<Verdict>)
    requires |verdicts| == |suggested|
    ensures Eligible(MapAll(suggested, verdicts)) == FirstFive(Distinct(verdicts))
    ensures NoRepeats(Eligible(MapAll(suggested, verdicts))) && |Eligible(MapAll(suggested, verdicts))| <= TAG_MAX_COUNT
  {
    if suggested != [] {
      var n := |suggested| - 1;
      EligibleAreTheFirstFive(suggested[..n], verdicts[..n]);
      var init := MapAll(suggested[..n], verdicts[..n]);
      var last := MapOne(suggested[n], verdicts[n], Distinct(verdicts[..n]));
      assert (init + [last])[..|init|] == init;
    }
    DistinctHasNoRepeats(verdicts);
  }

  // ---- what the mapping means ---------------------------------------------------------------------

  /** The places of the tags whose display name folds to `folded`. */
  ghost function NamePlaces(canonical: seq<Tag>, fold: string -> string, folded: string): set<nat> {
    set j: nat | j < |canonical| && fold(canonical[j].displayName) == folded
  }

  /** The places of the tags whose key folds to `folded`. */
  ghost function KeyPlaces(canonical: seq<Tag>, fold: string -> string, folded: string): set<nat> {
    set j: nat | j < |canonical| && fold(canonical[j].key) == folded
  }

  /** The tag is at the only place that fits by display name, or none fits so and it is at the only one by key. */
  ghost predicate IsNamed(canonical: seq<Tag>, fold: string -> string, folded: string, tag: Tag) {
    var names, keys := NamePlaces(canonical, fold, folded), KeyPlaces(canonical, fold, folded);
    || (exists j: nat :: j < |canonical| && names == {j} && canonical[j] == tag)
    || (names == {} && exists j: nat :: j < |canonical| && keys == {j} && canonical[j] == tag)
  }

  /** The keys of the tags found for the first `n` values. */
  ghost function KeysBefore(mapped: seq<MappedTag>, n: nat): set<string>
    requires n <= |mapped|
  {
    set k: nat | k < n && mapped[k].tag.Some? :: mapped[k].tag.value.key
  }

  /** What one value is mapped to, given the tags found before it. */
  ghost predicate WellMapped(value: string, folded: string, canonical: seq<Tag>, fold: string -> string,
                             before: set<string>, m: MappedTag) {
    var names, keys := NamePlaces(canonical, fold, folded), KeyPlaces(canonical, fold, folded);
    && m.value == value
    && (forall t :: m.tag == Some(t) <==> IsNamed(canonical, fold, folded, t))
    && (m.status.Ambiguous? <==> |names| >= 2 || (names == {} && |keys| >= 2))
    && (m.status.Unknown? <==> names == {} && keys == {})
    && (m.status.Duplicate? <==> m.tag.Some? && m.tag.value.key in before)
    && (m.status.Mapped? <==> m.tag.Some? && m.tag.value.key !in before && |before| < 5)
    && (m.status.LegacyLimit? <==> m.tag.Some? && m.tag.value.key !in before && |before| >= 5)
  }

  lemma NamePlacesSnoc(canonical: seq<Tag>, fold: string -> string, folded: string)
    requires canonical != []
    ensures var n := |canonical| - 1;
            var rest := NamePlaces(canonical[..n], fold, folded);
            && n !in rest
            && NamePlaces(canonical, fold, folded)
               == rest + (if fold(canonical[n].displayName) == folded then {n} else {})
            && forall j :: j in rest ==> j < n
  {
  }

  lemma {:induction false} NamesCounted(canonical: seq<Tag>, fold: string -> string, folded: string)
    ensures |ByName(canonical, fold, folded)| == |NamePlaces(canonical, fold, folded)|
    ensures forall j: nat :: NamePlaces(canonical, fold, folded) == {j} ==>
              j < |canonical| && ByName(canonical, fold, folded) == [canonical[j]]
  {
    if canonical != [] {
      var n := |canonical| - 1;
      NamesCounted(canonical[..n], fold, folded);
      NamePlacesSnoc(canonical, fold, folded);
      hide NamePlaces;
      var rest := NamePlaces(canonical[..n], fold, folded);
      OnlyLast(rest, n);
      assert rest + {} == rest;
    }
  }

  lemma KeyPlacesSnoc(canonical: seq<Tag>, fold: string -> string, folded: string)
    requires canonical != []
    ensures var n := |canonical| - 1;
            var rest := KeyPlaces(canonical[..n], fold, folded);
            && n !in rest
            && KeyPlaces(canonical, fold, folded) == rest + (if fold(canonical[n].key) == folded then {n} else {})
            && forall j :: j in rest ==> j < n
  {
  }

  lemma {:induction false} KeysCounted(canonical: seq<Tag>, fold: string -> string, folded: string)
    ensures |ByKey(canonical, fold, folded)| == |KeyPlaces(canonical, fold, folded)|
    ensures forall j: nat :: KeyPlaces(canonical, fold, folded) == {j} ==>
              j < |canonical| && ByKey(canonical, fold, folded) == [canonical[j]]
  {
    if canonical != [] {
      var n := |canonical| - 1;
      KeysCounted(canonical[..n], fold, folded);
      KeyPlacesSnoc(canonical, fold, folded);
      hide KeyPlaces;
      var rest := KeyPlaces(canonical[..n], fold, folded);
      OnlyLast(rest, n);
      assert rest + {} == rest;
    }
  }

  lemma OnlyLast(rest: set<nat>, n: nat)
    requires n !in rest
    ensures |rest + {n}| == |rest| + 1
    ensures forall j: nat :: rest + {n} == {j} ==> j == n && rest == {}
  {
    forall j: nat | rest + {n} == {j}
      ensures j == n && rest == {}
    {
      assert n in {j} && |{j}| == 1;
    }
  }

  lemma Single(places: set<nat>, n: nat)
    requires |places| == 1 && forall j :: j in places ==> j < n
    ensures exists j: nat :: j < n && places == {j}
  {
    var j :| j in places;
    assert |places - {j}| == 0;
    assert places == {j};
  }

  /** The verdict of a value is what the places of names and keys say. */
  lemma VerdictMeans(canonical: seq<Tag>, fold: string -> string, folded: string)
    ensures var v := Judge(canonical, fold, folded);
            var names, keys := NamePlaces(canonical, fold, folded), KeyPlaces(canonical, fold, folded);
            && (forall t :: v == Chosen(t) <==> IsNamed(canonical, fold, folded, t))
            && (v.Many? <==> |names| >= 2 || (names == {} && |keys| >= 2))
            && (v.Nothing? <==> names == {} && keys == {})
  {
    var names, keys := NamePlaces(canonical, fold, folded), KeyPlaces(canonical, fold, folded);
    NamesCounted(canonical, fold, folded);
    KeysCounted(canonical, fold, folded);
    assert names == {} <==> |names| == 0;
    assert keys == {} <==> |keys| == 0;
    if |names| == 1 {
      Single(names, |canonical|);
    }
    if |keys| == 1 {
      Single(keys, |canonical|);
    }
  }

  /** The distinct keys of the first verdicts are the keys of the tags found for the first values. */
  lemma {:induction false} DistinctAreFound(suggested: seq<string>, verdicts: seq<Verdict>, n: nat)
    requires |verdicts| == |suggested| && n <= |suggested|
    ensures |MapAll(suggested, verdicts)| == |suggested|
    ensures Elements(Distinct(verdicts[..n])) == KeysBefore(MapAll(suggested, verdicts), n)
  {
    EachMapped(suggested, verdicts);
    var mapped := MapAll(suggested, verdicts);
    if n > 0 {
      DistinctAreFound(suggested, verdicts, n - 1);
      assert verdicts[..n][..n - 1] == verdicts[..n - 1] && verdicts[..n][n - 1] == verdicts[n - 1];
      var v := verdicts[n - 1];
      assert mapped[n - 1].tag == if v.Chosen? then Some(v.tag) else None;
      KeysOfMore(mapped, n);
      hide MapAll, MapOne, KeysBefore;
      if v.Chosen? {
        ElementsOfMore(Distinct(verdicts[..n - 1]), v.tag.key);
      }
    }
  }

  lemma KeysOfMore(mapped: seq<MappedTag>, n: nat)
    requires 0 < n <= |mapped|
    ensures KeysBefore(mapped, n)
            == KeysBefore(mapped, n - 1) + (if mapped[n - 1].tag.Some? then {mapped[n - 1].tag.value.key} else {})
  {
    forall k
      ensures k in KeysBefore(mapped, n) <==>
              k in KeysBefore(mapped, n - 1) || (mapped[n - 1].tag.Some? && mapped[n - 1].tag.value.key == k)
    {
      if k in KeysBefore(mapped, n) {
        var i: nat :| i < n && mapped[i].tag.Some? && mapped[i].tag.value.key == k;
        assert i < n - 1 ==> k in KeysBefore(mapped, n - 1);
      }
    }
  }

  lemma {:induction false} EachMapped(suggested: seq<string>, verdicts: seq<Verdict>)
    requires |verdicts| == |suggested|
    ensures |MapAll(suggested, verdicts)| == |suggested|
    ensures forall i :: 0 <= i < |suggested| ==>
              MapAll(suggested, verdicts)[i] == MapOne(suggested[i], verdicts[i], Distinct(verdicts[..i]))
  {
    hide MapOne, Distinct;
    if suggested != [] {
      var n := |suggested| - 1;
      EachMapped(suggested[..n], verdicts[..n]);
      forall i | 0 <= i < n
        ensures verdicts[..n][..i] == verdicts[..i]
      {
      }
    }
  }

  lemma {:induction false} ElementsCounted(keys: seq<string>)
    requires NoRepeats(keys)
    ensures |Elements(keys)| == |keys|
  {
    if keys != [] {
      var n := |keys| - 1;
      ElementsCounted(keys[..n]);
      assert keys == keys[..n] + [keys[n]];
      ElementsOfMore(keys[..n], keys[n]);
    }
  }

  /** Every value gets the tag and the status its places and the values before it give it. */
  lemma EachIsWellMapped(suggested: seq<string>, canonical: seq<Tag>, fold: string -> string,
                         trim: string -> string, i: nat)
    requires i < |suggested|
    ensures var mapped := MapAll(suggested, JudgeAll(canonical, fold, trim, suggested));
            && |mapped| == |suggested|
            && WellMapped(suggested[i], fold(trim(suggested[i])), canonical, fold, KeysBefore(mapped, i), mapped[i])
  {
    var verdicts := JudgeAll(canonical, fold, trim, suggested);
    var mapped := MapAll(suggested, verdicts);
    var folded := fold(trim(suggested[i]));
    EachMapped(suggested, verdicts);
    DistinctAreFound(suggested, verdicts, i);
    DistinctHasNoRepeats(verdicts[..i]);
    ElementsCounted(Distinct(verdicts[..i]));
    VerdictMeans(canonical, fold, folded);
    assert verdicts[i] == Judge(canonical, fold, folded);
    hide *;
    OneIsWellMapped(suggested[i], folded, canonical, fold, verdicts[i], Distinct(verdicts[..i]), KeysBefore(mapped, i),
                    mapped[i]);
  }

  lemma OneIsWellMapped(value: string, folded: string, canonical: seq<Tag>, fold: string -> string, v: Verdict,
                        before: seq<string>, keys: set<string>, m: MappedTag)
    requires Elements(before) == keys && |keys| == |before| && m == MapOne(value, v, before)
    requires forall t :: v == Chosen(t) <==> IsNamed(canonical, fold, folded, t)
    requires var names, places := NamePlaces(canonical, fold, folded), KeyPlaces(canonical, fold, folded);
             && (v.Many? <==> |names| >= 2 || (names == {} && |places| >= 2))
             && (v.Nothing? <==> names == {} && places == {})
    ensures WellMapped(value, folded, canonical, fold, keys, m)
  {
    hide IsNamed, NamePlaces, KeyPlaces;
    assert v.Chosen? ==> (v.tag.key in before <==> v.tag.key in keys);
    assert v.Chosen? ==> v == Chosen(v.tag);
  }

  lemma MapIsWell(suggested: seq<string>, canonical: seq<Tag>, fold: string -> string, trim: string -> string)
    ensures var mapped := MapAll(suggested, JudgeAll(canonical, fold, trim, suggested));
            && |mapped| == |suggested|
            && forall i :: 0 <= i < |suggested| ==>
                 WellMapped(suggested[i], fold(trim(suggested[i])), canonical, fold, KeysBefore(mapped, i), mapped[i])
  {
    var mapped := MapAll(suggested, JudgeAll(canonical, fold, trim, suggested));
    EachMapped(suggested, JudgeAll(canonical, fold, trim, suggested));
    hide WellMapped, KeysBefore, MapAll;
    forall i | 0 <= i < |suggested|
      ensures WellMapped(suggested[i], fold(trim(suggested[i])), canonical, fold, KeysBefore(mapped, i), mapped[i])
    {
      EachIsWellMapped(suggested, canonical, fold, trim, i);
    }
  }

  // ---- the mapping as it runs ---------------------------------------------------------------------

  /** One index: folded names to the tags that have them, in order. */
  method BuildIndex(canonical: seq<Tag>, fold: string -> string, byName: bool) returns (index: map<string, seq<Tag>>)
    ensures forall f ::
              (if f in index then index[f] else [])
              == if byName then ByName(canonical, fold, f) else ByKey(canonical, fold, f)
  {
    index := map[];
    for i := 0 to |canonical|
      invariant forall f :: (if f in index then index[f] else [])
                            == if byName then ByName(canonical[..i], fold, f) else ByKey(canonical[..i], fold, f)
    {
      assert canonical[..i + 1][..i] == canonical[..i];
      var folded := fold(if byName then canonical[i].displayName else canonical[i].key);
      index := index[folded := (if folded in index then index[folded] else []) + [canonical[i]]];
    }
    assert canonical[..|canonical|] == canonical;
  }

  method MapSuggestedTags(suggested: seq<string>, canonical: seq<Tag>, fold: string -> string, trim: string -> string)
    returns (mapped: seq<MappedTag>)
    ensures |mapped| == |suggested|
    ensures forall i :: 0 <= i < |suggested| ==>
              WellMapped(suggested[i], fold(trim(suggested[i])), canonical, fold, KeysBefore(mapped, i), mapped[i])
    ensures mapped == MapAll(suggested, JudgeAll(canonical, fold, trim, suggested))
  {
    MapIsWell(suggested, canonical, fold, trim);
    hide WellMapped, KeysBefore;
    var displayIndex := BuildIndex(canonical, fold, true);
    var keyIndex := BuildIndex(canonical, fold, false);
    ghost var verdicts := JudgeAll(canonical, fold, trim, suggested);
    MapNone(suggested, verdicts);
    hide MapAll, Distinct, Elements, ByName, ByKey;
    var mappedKeys: set<string>, mappedCount: nat := {}, 0;
    mapped := [];
    for i := 0 to |suggested|
      invariant mapped == MapAll(suggested[..i], verdicts[..i])
      invariant mappedKeys == Elements(Distinct(verdicts[..i]))
      invariant mappedCount
                == if |Distinct(verdicts[..i])| < TAG_MAX_COUNT then |Distinct(verdicts[..i])| else TAG_MAX_COUNT
    {
      var raw := suggested[i];
      var folded := fold(trim(raw));
      ghost var before := Distinct(verdicts[..i]);
      MapMore(suggested, verdicts, i);
      var displayMatches := if folded in displayIndex then displayIndex[folded] else [];
      var keyMatches := if folded in keyIndex then keyIndex[folded] else [];
      var verdict := if |displayMatches| > 1 then Many
                     else if |displayMatches| == 1 then Chosen(displayMatches[0])
                     else if |keyMatches| > 1 then Many
                     else if |keyMatches| != 1 then Nothing
                     else Chosen(keyMatches[0]);
      assert verdict == verdicts[i];
      match verdict {
        case Many =>
          mapped := mapped + [MappedTag(raw, Ambiguous, None)];
        case Nothing =>
          mapped := mapped + [MappedTag(raw, Unknown, None)];
        case Chosen(tag) =>
          ElementsOfMore(before, tag.key);
          if tag.key in mappedKeys {
            mapped := mapped + [MappedTag(raw, Duplicate, Some(tag))];
          } else {
            mappedKeys := mappedKeys + {tag.key};
            if mappedCount >= TAG_MAX_COUNT {
              mapped := mapped + [MappedTag(raw, LegacyLimit, Some(tag))];
            } else {
              mappedCount := mappedCount + 1;
              mapped := mapped + [MappedTag(raw, Mapped, Some(tag))];
            }
          }
      }
    }
    assert suggested[..|suggested|] == suggested && verdicts[..|suggested|] == verdicts;
  }

  lemma MapNone(suggested: seq<string>, verdicts: seq<Verdict>)
    requires |verdicts| == |suggested|
    ensures MapAll(suggested[..0], verdicts[..0]) == [] && Distinct(verdicts[..0]) == [] && Elements([]) == {}
  {
  }

  lemma MapMore(suggested: seq<string>, verdicts: seq<Verdict>, i: nat)
    requires |verdicts| == |suggested| && i < |suggested|
    ensures MapAll(suggested[..i + 1], verdicts[..i + 1])
            == MapAll(suggested[..i], verdicts[..i]) + [MapOne(suggested[i], verdicts[i], Distinct(verdicts[..i]))]
    ensures var before, v := Distinct(verdicts[..i]), verdicts[i];
            Distinct(verdicts[..i + 1]) == if v.Chosen? && v.tag.key !in before then before + [v.tag.key] else before
  {
    assert verdicts[..i + 1][..i] == verdicts[..i] && suggested[..i + 1][..i] == suggested[..i];
  }

  function Elements(keys: seq<string>): set<string> {
    set k | k in keys
  }

  lemma ElementsOfMore(keys: seq<string>, k: string)
    ensures k in Elements(keys) <==> k in keys
    ensures Elements(keys + [k]) == Elements(keys) + {k}
  {
  }
}
