// The apply request: what the review controller builds, and what the server accepts.

module CompanionApply {
  import opened Text
  import opened CompanionTags

  // ---- the server ------------------------------------------------------------------------

  const ALLOWED_APPLY_FIELDS := {"display_title", "description", "tags"}

  function SetOf(s: seq<string>): set<string> {
    set x | x in s
  }

  /** `validate_companion_review_apply_request`. */
  predicate Accepts(fields: seq<string>, tagKeys: seq<string>) {
    && fields != [] && |SetOf(fields)| == |fields| && SetOf(fields) <= ALLOWED_APPLY_FIELDS
    && (if "tags" in fields
        then tagKeys != [] && |tagKeys| <= TAG_MAX_COUNT && |SetOf(tagKeys)| == |tagKeys| && "" !in tagKeys
        else tagKeys == [])
  }

  lemma {:induction false} NoRepeatsCount(s: seq<string>)
    ensures NoRepeats(s) ==> |SetOf(s)| == |s|
  {
    if s != [] && NoRepeats(s) {
      var n := |s| - 1;
      NoRepeatsCount(s[..n]);
      assert s == s[..n] + [s[n]];
      assert SetOf(s) == SetOf(s[..n]) + {s[n]};
      assert forall i :: 0 <= i < n ==> s[..n][i] == s[i] && s[i] != s[n];
      assert s[n] !in SetOf(s[..n]);
    }
  }

  // ---- a plain object used as a set ----------------------------------------------------------

  /** Every object inherits these names, so looking one up finds something even before it is stored. */
  const INHERITED := {
    "constructor", "toString", "toLocaleString", "valueOf", "hasOwnProperty", "isPrototypeOf", "propertyIsEnumerable",
    "__proto__", "__defineGetter__", "__defineSetter__", "__lookupGetter__", "__lookupSetter__"}

  predicate Truthy(own: set<string>, key: string) {
    key in own || key in INHERITED
  }

  // ---- the shared sanitizers --------------------------------------------------------------------

  predicate KeyChar(c: char) {
    'a' <= c <= 'z' || '0' <= c <= '9' || c == '-'
  }

  predicate TagKey(key: string) {
    1 <= |key| <= 64 && 'a' <= key[0] <= 'z' && forall i :: 1 <= i < |key| ==> KeyChar(key[i])
  }

  predicate Hex(c: char) {
    '0' <= c <= '9' || 'a' <= c <= 'f' || 'A' <= c <= 'F'
  }

  predicate IsUuid(s: string) {
    && |s| == 36
    && (forall i :: 0 <= i < 36 ==> if i == 8 || i == 13 || i == 18 || i == 23 then s[i] == '-' else Hex(s[i]))
    && '1' <= s[14] <= '8'
    && (s[19] == '8' || s[19] == '9' || s[19] == 'a' || s[19] == 'b' || s[19] == 'A' || s[19] == 'B')
  }

  /** A key the client can send at all. */
  predicate Sendable(key: string) {
    TagKey(key) && key !in INHERITED
  }

  /** The sendable ones, each once, in order. */
  function Kept(keys: seq<string>): seq<string> {
    if keys == [] then []
    else
      var rest, last := Kept(keys[..|keys| - 1]), keys[|keys| - 1];
      if Sendable(last) && last !in rest then rest + [last] else rest
  }

  method SanitizeTagKeys(raw: seq<string>) returns (keys: seq<string>)
    ensures keys == FirstFive(Kept(raw))
  {
    keys := [];
    var seen: set<string> := {};
    for i := 0 to |raw|
      invariant keys == Kept(raw[..i]) && seen == SetOf(keys)
    {
      assert raw[..i + 1][..i] == raw[..i];
      if TagKey(raw[i]) && !Truthy(seen, raw[i]) {
        seen := seen + {raw[i]};
        keys := keys + [raw[i]];
      }
    }
    assert raw[..|raw|] == raw;
    keys := if |keys| <= 5 then keys else keys[..5];
  }

  /** Allowed field names, each once, in order. */
  function KeptFields(fields: seq<string>): seq<string> {
    if fields == [] then []
    else
      var rest, last := KeptFields(fields[..|fields| - 1]), fields[|fields| - 1];
      if last in ALLOWED_APPLY_FIELDS && last !in rest then rest + [last] else rest
  }

  method SanitizeFields(raw: seq<string>) returns (fields: seq<string>)
    ensures fields == KeptFields(raw)
  {
    fields := [];
    var seen: set<string> := {};
    for i := 0 to |raw|
      invariant fields == KeptFields(raw[..i]) && seen == SetOf(fields)
    {
      assert raw[..i + 1][..i] == raw[..i];
      if raw[i] in ALLOWED_APPLY_FIELDS && !Truthy(seen, raw[i]) {
        seen := seen + {raw[i]};
        fields := fields + [raw[i]];
      }
    }
    assert raw[..|raw|] == raw;
  }

  datatype Body = Body(runId: string, fields: seq<string>, tagKeys: seq<string>)

  function BodyOf(runId: string, fields: seq<string>, tagKeys: seq<string>): Option<Body> {
    var kept, keys := KeptFields(fields), FirstFive(Kept(tagKeys));
    if !IsUuid(runId) || kept == [] || ("tags" in kept && keys == []) then None
    else Some(Body(runId, kept, if "tags" in kept then keys else []))
  }

  method SanitizeApplyBody(runId: string, fields: seq<string>, tagKeys: seq<string>) returns (body: Option<Body>)
    ensures body == BodyOf(runId, fields, tagKeys)
  {
    if !IsUuid(runId) {
      return None;
    }
    var kept := SanitizeFields(fields);
    if kept == [] {
      return None;
    }
    var keys := [];
    if "tags" in kept {
      keys := SanitizeTagKeys(tagKeys);
      if |keys| < 1 {
        return None;
      }
    }
    body := Some(Body(runId, kept, keys));
  }

  lemma {:induction false} KeptAreSound(keys: seq<string>)
    ensures NoRepeats(Kept(keys)) && Subsequence(Kept(keys), keys)
    ensures forall k :: k in Kept(keys) <==> k in keys && Sendable(k)
  {
    if keys != [] {
      var n := |keys| - 1;
      KeptAreSound(keys[..n]);
      assert keys == keys[..n] + [keys[n]];
      SubsequenceGrows(Kept(keys[..n]), keys[..n], keys[n]);
    }
  }

  lemma {:induction false} KeptFieldsAreSound(fields: seq<string>)
    ensures NoRepeats(KeptFields(fields)) && SetOf(KeptFields(fields)) <= ALLOWED_APPLY_FIELDS
  {
    if fields != [] {
      KeptFieldsAreSound(fields[..|fields| - 1]);
    }
  }

  lemma {:induction false} SubsequenceGrows(sub: seq<string>, s: seq<string>, k: string)
    requires Subsequence(sub, s)
    ensures Subsequence(sub, s + [k]) && Subsequence(sub + [k], s + [k])
  {
    var more := s + [k];
    if s == [] {
      assert sub == [] && [] + [k] == [k] && more == [k];
      assert [k][1..] == [];
    } else {
      assert more[1..] == s[1..] + [k];
      if sub == [] {
        SubsequenceGrows([], s[1..], k);
        assert [] + [k] == [k];
        if k == s[0] {
          assert [k][1..] == [];
        }
      } else if sub[0] == s[0] {
        SubsequenceGrows(sub[1..], s[1..], k);
        assert (sub + [k])[1..] == sub[1..] + [k];
      } else {
        SubsequenceGrows(sub, s[1..], k);
      }
    }
  }

  lemma {:induction false} PrefixOfSubsequence(sub: seq<string>, s: seq<string>, n: nat)
    requires Subsequence(sub, s) && n <= |sub|
    ensures Subsequence(sub[..n], s)
  {
    if n > 0 && s != [] {
      if sub[0] == s[0] {
        PrefixOfSubsequence(sub[1..], s[1..], n - 1);
        assert sub[..n][1..] == sub[1..][..n - 1];
      } else {
        PrefixOfSubsequence(sub, s[1..], n);
      }
    }
  }

  lemma {:induction false} SubsequenceTransitive(a: seq<string>, b: seq<string>, c: seq<string>)
    requires Subsequence(a, b) && Subsequence(b, c)
    ensures Subsequence(a, c)
    decreases |c|
  {
    if a != [] && b != [] {
      if b[0] != c[0] {
        SubsequenceTransitive(a, b, c[1..]);
        LongerEligible(a, [c[0]], c[1..]);
        assert [c[0]] + c[1..] == c;
      } else if a[0] == b[0] {
        SubsequenceTransitive(a[1..], b[1..], c[1..]);
      } else {
        SubsequenceTransitive(a, b[1..], c[1..]);
      }
    }
  }

  // ---- the review controller ---------------------------------------------------------------------

  /** `remainingMappedKeys`. */
  function Remaining(tags: seq<MappedTag>, removed: set<string>): seq<string> {
    if tags == [] then []
    else
      var last := tags[|tags| - 1];
      Remaining(tags[..|tags| - 1], removed)
      + (if last.status.Mapped? && last.tag.Some? && !Truthy(removed, last.tag.value.key) then [last.tag.value.key]
         else [])
  }

  lemma {:induction false} RemainingAreEligible(tags: seq<MappedTag>, removed: set<string>)
    ensures Subsequence(Remaining(tags, removed), Eligible(tags))
    ensures forall k :: k in Remaining(tags, removed) <==> k in Eligible(tags) && !Truthy(removed, k)
  {
    if tags != [] {
      var n := |tags| - 1;
      RemainingAreEligible(tags[..n], removed);
      var key := if tags[n].status.Mapped? && tags[n].tag.Some? then tags[n].tag.value.key else "";
      SubsequenceGrows(Remaining(tags[..n], removed), Eligible(tags[..n]), key);
      assert Remaining(tags[..n], removed) + [] == Remaining(tags[..n], removed);
      assert Eligible(tags[..n]) + [] == Eligible(tags[..n]);
    }
  }

  datatype Fields = Fields(title: bool, tags: bool, description: bool)

  function Selected(f: Fields): seq<string> {
    (if f.title then ["display_title"] else []) + (if f.tags then ["tags"] else [])
    + (if f.description then ["description"] else [])
  }

  lemma {:induction false} CleanIsKept(fields: seq<string>)
    requires NoRepeats(fields) && forall i :: 0 <= i < |fields| ==> fields[i] in ALLOWED_APPLY_FIELDS
    ensures KeptFields(fields) == fields
  {
    if fields != [] {
      var n := |fields| - 1;
      CleanIsKept(fields[..n]);
      assert fields == fields[..n] + [fields[n]];
      assert forall i :: 0 <= i < n ==> fields[..n][i] == fields[i] && fields[i] != fields[n];
    }
  }

  lemma SelectedAreKept(f: Fields)
    ensures KeptFields(Selected(f)) == Selected(f) && ("tags" in Selected(f) <==> f.tags)
    ensures Selected(f) == [] <==> !f.title && !f.tags && !f.description
  {
    assert |"display_title"| == 13 && |"tags"| == 4 && |"description"| == 11;
    var s := Selected(f);
    assert f.title ==> s[0] == "display_title";
    assert f.tags ==> s[if f.title then 1 else 0] == "tags";
    CleanIsKept(s);
  }

  lemma NothingEmbeds(eligible: seq<string>)
    ensures Embeds([], eligible)
  {
    SubsequenceEmbeds([], eligible);
  }

  lemma KeysAreSomething(keys: seq<string>)
    ensures "" !in FirstFive(Kept(keys)) && NoRepeats(FirstFive(Kept(keys)))
    ensures forall k :: k in FirstFive(Kept(keys)) ==> k in keys
  {
    KeptAreSound(keys);
    hide Kept;
    var kept, sent := Kept(keys), FirstFive(Kept(keys));
    assert !Sendable("");
    assert forall i :: 0 <= i < |sent| ==> sent[i] == kept[i] && kept[i] in kept;
  }

  /**
   * Whatever is checked and whichever chips are removed, a body that is built at all passes the server's
   * checks, and its keys are an ordered subsequence of the server's eligible keys.
   */
  lemma BuiltIsAccepted(runId: string, f: Fields, tags: seq<MappedTag>, removed: set<string>)
    ensures var body := BodyOf(runId, Selected(f), if f.tags then Remaining(tags, removed) else []);
            body.Some? ==> Accepts(body.value.fields, body.value.tagKeys) && Embeds(body.value.tagKeys, Eligible(tags))
  {
    hide KeptFields, Kept, Remaining, Eligible, Selected, Embeds, Subsequence, TagKey;
    var keys := Remaining(tags, removed);
    SelectedAreKept(f);
    KeptFieldsAreSound(Selected(f));
    NoRepeatsCount(Selected(f));
    KeptAreSound(keys);
    RemainingAreEligible(tags, removed);
    var sent := FirstFive(Kept(keys));
    PrefixOfSubsequence(Kept(keys), keys, |sent|);
    SubsequenceTransitive(sent, keys, Eligible(tags));
    assert NoRepeats(sent);
    NoRepeatsCount(sent);
    SubsequenceEmbeds(sent, Eligible(tags));
    NothingEmbeds(Eligible(tags));
    KeysAreSomething(keys);
  }

  /** A body is built exactly when something is checked and, with tags checked, some remaining key can be sent. */
  lemma BuiltIff(runId: string, f: Fields, tags: seq<MappedTag>, removed: set<string>)
    ensures BodyOf(runId, Selected(f), if f.tags then Remaining(tags, removed) else []).Some?
            <==> IsUuid(runId) && (f.title || f.tags || f.description)
                 && (f.tags ==> exists k :: k in Eligible(tags) && k !in removed && Sendable(k))
  {
    var keys := Remaining(tags, removed);
    SelectedAreKept(f);
    KeptAreSound(keys);
    RemainingAreEligible(tags, removed);
    hide KeptFields, Kept, Remaining, Eligible, Selected, TagKey;
    assert Kept(keys) != [] <==> exists k :: k in Kept(keys) by {
      if Kept(keys) != [] {
        assert Kept(keys)[0] in Kept(keys);
      }
    }
  }

  /** The eligible keys that were not removed and can be sent, each once and in order. */
  ghost predicate Chips(chips: seq<string>, tags: seq<MappedTag>, removed: set<string>) {
    && NoRepeats(chips) && Embeds(chips, Eligible(tags))
    && forall k :: k in chips <==> k in Eligible(tags) && k !in removed && Sendable(k)
  }

  /** The first five of them go out. */
  ghost predicate Sent(keys: seq<string>, tags: seq<MappedTag>, removed: set<string>) {
    exists chips :: Chips(chips, tags, removed) && keys == chips[..if |chips| <= 5 then |chips| else 5]
  }

  lemma KeptAreChips(tags: seq<MappedTag>, removed: set<string>)
    ensures Chips(Kept(Remaining(tags, removed)), tags, removed)
    ensures Sent(FirstFive(Kept(Remaining(tags, removed))), tags, removed)
  {
    var keys := Remaining(tags, removed);
    KeptAreSound(keys);
    RemainingAreEligible(tags, removed);
    hide Kept, Remaining, Eligible, Embeds, Subsequence, TagKey, NoRepeats;
    SubsequenceTransitive(Kept(keys), keys, Eligible(tags));
    SubsequenceEmbeds(Kept(keys), Eligible(tags));
    assert Kept(keys)[..|Kept(keys)|] == Kept(keys);
  }

  lemma AllIsSent(runId: string, f: Fields, tags: seq<MappedTag>, removed: set<string>)
    ensures var body := BodyOf(runId, Selected(f), if f.tags then Remaining(tags, removed) else []);
            body.Some? ==>
              && ("display_title" in body.value.fields <==> f.title) && ("tags" in body.value.fields <==> f.tags)
              && ("description" in body.value.fields <==> f.description)
              && if f.tags then Sent(body.value.tagKeys, tags, removed) else body.value.tagKeys == []
  {
    SelectedAreKept(f);
    SelectedHas(f);
    KeptAreChips(tags, removed);
    hide KeptFields, Kept, Remaining, Selected, Sent, FirstFive;
  }

  lemma SelectedHas(f: Fields)
    ensures "display_title" in Selected(f) <==> f.title
    ensures "tags" in Selected(f) <==> f.tags
    ensures "description" in Selected(f) <==> f.description
  {
    assert |"display_title"| == 13 && |"tags"| == 4 && |"description"| == 11;
    var s := Selected(f);
    assert f.title ==> s[0] == "display_title";
    assert f.tags ==> s[if f.title then 1 else 0] == "tags";
    assert f.description ==> s[|s| - 1] == "description";
  }

  class ReviewController {
    var fields: Fields
    var removed: set<string>
    var runId: string
    var tags: seq<MappedTag>         // of the suggestion on show

    constructor (runId: string, tags: seq<MappedTag>)
      ensures fields == Fields(false, false, false) && removed == {} && this.runId == runId && this.tags == tags
    {
      fields, removed, this.runId, this.tags := Fields(false, false, false), {}, runId, tags;
    }

    /** Tags can be on only while some mapped key remains; painting sees to it after every change. */
    predicate Valid()
      reads this
    {
      fields.tags ==> Remaining(tags, removed) != []
    }

    /** Another run of the same medium: a new suggestion, with nothing checked and nothing removed yet. */
    method SelectRun(nextRunId: string, nextTags: seq<MappedTag>)
      requires Valid()
      modifies this
      ensures Valid()
      ensures IsUuid(nextRunId) && nextRunId != old(runId) ==>
                runId == nextRunId && tags == nextTags && fields == Fields(false, false, false) && removed == {}
      ensures !IsUuid(nextRunId) || nextRunId == old(runId) ==>
                runId == old(runId) && tags == old(tags) && fields == old(fields) && removed == old(removed)
    {
      if IsUuid(nextRunId) && nextRunId != runId {
        runId, tags := nextRunId, nextTags;
        fields, removed := Fields(false, false, false), {};
      }
    }

    method SetField(name: string, checked: bool)
      requires Valid()
      modifies this`fields
      ensures Valid()
      ensures fields == if name == "display_title" then old(fields).(title := checked)
                        else if name == "tags" then old(fields).(tags := checked && Remaining(tags, removed) != [])
                        else if name == "description" then old(fields).(description := checked)
                        else old(fields)
    {
      if name == "tags" && checked && |Remaining(tags, removed)| < 1 {
        fields := fields.(tags := false);
      } else if name == "display_title" {
        fields := fields.(title := checked);
      } else if name == "tags" {
        fields := fields.(tags := checked);
      } else if name == "description" {
        fields := fields.(description := checked);
      }
    }

    method RemoveChip(key: string)
      requires Valid()
      modifies this`removed, this`fields
      ensures Valid()
      ensures removed == if key != "" then old(removed) + {key} else old(removed)
      ensures fields == if Remaining(tags, removed) == [] then old(fields).(tags := false) else old(fields)
    {
      if key != "" {
        removed := removed + {key};
      }
      if |Remaining(tags, removed)| < 1 {
        fields := fields.(tags := false);
      }
    }

    /** The request `save` would send, if any. */
    method Save() returns (body: Option<Body>)
      ensures body.Some? ==> body.value.runId == runId && Accepts(body.value.fields, body.value.tagKeys)
                             && Embeds(body.value.tagKeys, Eligible(tags))
                             && forall k :: k in body.value.tagKeys ==> k !in removed
      ensures body.Some? <==> IsUuid(runId) && (fields.title || fields.tags || fields.description)
                              && (fields.tags ==> exists k :: k in Eligible(tags) && k !in removed && Sendable(k))
      // and it says all that is checked, and every chip that was left
      ensures body.Some? ==>
                && ("display_title" in body.value.fields <==> fields.title)
                && ("tags" in body.value.fields <==> fields.tags)
                && ("description" in body.value.fields <==> fields.description)
                && if fields.tags then Sent(body.value.tagKeys, tags, removed) else body.value.tagKeys == []
    {
      var selected := [];
      if fields.title {
        selected := selected + ["display_title"];
      }
      if fields.tags {
        selected := selected + ["tags"];
      }
      if fields.description {
        selected := selected + ["description"];
      }
      assert selected == Selected(fields);
      hide Selected, BodyOf, Accepts, Embeds, Eligible, Sent;
      BuiltIsAccepted(runId, fields, tags, removed);
      BuiltIff(runId, fields, tags, removed);
      SentAreKept(runId, selected, if fields.tags then Remaining(tags, removed) else [], removed, tags);
      AllIsSent(runId, fields, tags, removed);
      body := SanitizeApplyBody(runId, selected, if fields.tags then Remaining(tags, removed) else []);
    }
  }

  lemma SentAreKept(runId: string, selected: seq<string>, keys: seq<string>, removed: set<string>, tags: seq<MappedTag>)
    requires keys == [] || keys == Remaining(tags, removed)
    ensures var body := BodyOf(runId, selected, keys);
            body.Some? ==> body.value.runId == runId && forall k :: k in body.value.tagKeys ==> k !in removed
  {
    hide Kept, Remaining, Eligible, KeptFields;
    KeysAreSomething(keys);
    RemainingAreEligible(tags, removed);
  }
}
