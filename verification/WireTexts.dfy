// The texts that are stored, hashed and handed out: names, order and punctuation.

module WireTexts {
  import opened Text
  import opened Json
  import opened ResearchDomain
  import C = Cursor

  // ---- an object as text ------------------------------------------------------------------------------

  /** Nothing in it has to be escaped. */
  predicate Bare(s: string) {
    forall i :: 0 <= i < |s| ==> s[i] >= ' ' && s[i] != '"' && s[i] != '\\'
  }

  lemma {:induction false} BareIsWritten(s: string)
    requires Bare(s)
    ensures WriteChars(s) == s
  {
    if s != "" {
      assert Bare(s[1..]);
      BareIsWritten(s[1..]);
      assert WriteChar(s[0]) == [s[0]];
      hide WriteChar;
    }
  }

  /** A name in quotes, a colon and a value. */
  function Pair(name: string, value: string): string {
    "\"" + name + "\":" + value
  }

  /** Pairs in braces, with commas and no space between them. */
  function Braces(pairs: seq<string>): string {
    "{" + Join(",", pairs) + "}"
  }

  function PairOf(m: Member): string {
    Pair(m.key, Dumps(m.value))
  }

  function Pairs(members: seq<Member>): (pairs: seq<string>)
    ensures |pairs| == |members|
  {
    seq(|members|, i requires 0 <= i < |members| => PairOf(members[i]))
  }

  lemma PairIs(m: Member, rest: string)
    requires Bare(m.key)
    ensures Quote(m.key) + (":" + (Dumps(m.value) + rest)) == Pair(m.key, Dumps(m.value)) + rest
  {
    BareIsWritten(m.key);
    hide Dumps, WriteChars;
  }

  lemma WriteMembersIs(members: seq<Member>)
    requires members != []
    ensures WriteMembers(members)
            == Quote(members[0].key)
               + (":" + (Dumps(members[0].value) + (if |members| == 1 then "}" else "," + WriteMembers(members[1..]))))
  {
    hide Dumps, Quote;
  }

  predicate BareKeys(members: seq<Member>) {
    forall i :: 0 <= i < |members| ==> Bare(members[i].key)
  }

  lemma PairsAre(members: seq<Member>)
    requires members != []
    ensures var pairs := Pairs(members);
            && pairs[0] == Pair(members[0].key, Dumps(members[0].value)) && pairs[1..] == Pairs(members[1..])
            && Join(",", pairs) == if |pairs| == 1 then pairs[0] else pairs[0] + "," + Join(",", pairs[1..])
  {
    hide Pair, Dumps;
  }

  lemma Regrouped(a: string, b: string, c: string)
    ensures a + ("," + (b + c)) == (a + "," + b) + c
  {
  }

  lemma {:induction false} MembersAreJoined(members: seq<Member>)
    requires members != [] && BareKeys(members)
    ensures WriteMembers(members) == Join(",", Pairs(members)) + "}"
    decreases |members|
  {
    assert Bare(members[0].key) && (|members| > 1 ==> BareKeys(members[1..]));
    hide *;
    PairsAre(members);
    WriteMembersIs(members);
    if |members| == 1 {
      PairIs(members[0], "}");
    } else {
      MembersAreJoined(members[1..]);
      PairIs(members[0], "," + WriteMembers(members[1..]));
      Regrouped(Pairs(members)[0], Join(",", Pairs(members)[1..]), "}");
    }
  }

  lemma ObjectText(members: seq<Member>)
    requires members != [] && BareKeys(members)
    ensures Dumps(Obj(members)) == Braces(Pairs(members))
  {
    MembersAreJoined(members);
    hide WriteMembers, Join, Pairs;
  }

  lemma Object2(a: Member, b: Member)
    requires Bare(a.key) && Bare(b.key)
    ensures Dumps(Obj([a, b])) == Braces([PairOf(a), PairOf(b)])
  {
    ObjectText([a, b]);
    hide PairOf, Bare, Braces, Dumps;
    assert Pairs([a, b]) == [PairOf(a), PairOf(b)];
  }

  lemma Object4(a: Member, b: Member, c: Member, d: Member)
    requires Bare(a.key) && Bare(b.key) && Bare(c.key) && Bare(d.key)
    ensures Dumps(Obj([a, b, c, d])) == Braces([PairOf(a), PairOf(b), PairOf(c), PairOf(d)])
  {
    ObjectText([a, b, c, d]);
    hide PairOf, Bare, Braces, Dumps;
    assert Pairs([a, b, c, d]) == [PairOf(a), PairOf(b), PairOf(c), PairOf(d)];
  }

  lemma Object5(a: Member, b: Member, c: Member, d: Member, e: Member)
    requires Bare(a.key) && Bare(b.key) && Bare(c.key) && Bare(d.key) && Bare(e.key)
    ensures Dumps(Obj([a, b, c, d, e])) == Braces([PairOf(a), PairOf(b), PairOf(c), PairOf(d), PairOf(e)])
  {
    ObjectText([a, b, c, d, e]);
    hide PairOf, Bare, Braces, Dumps;
    assert Pairs([a, b, c, d, e]) == [PairOf(a), PairOf(b), PairOf(c), PairOf(d), PairOf(e)];
  }

  lemma Object6(a: Member, b: Member, c: Member, d: Member, e: Member, f: Member)
    requires Bare(a.key) && Bare(b.key) && Bare(c.key) && Bare(d.key) && Bare(e.key) && Bare(f.key)
    ensures Dumps(Obj([a, b, c, d, e, f])) == Braces([PairOf(a), PairOf(b), PairOf(c), PairOf(d), PairOf(e), PairOf(f)])
  {
    ObjectText([a, b, c, d, e, f]);
    hide PairOf, Bare, Braces, Dumps;
    assert Pairs([a, b, c, d, e, f]) == [PairOf(a), PairOf(b), PairOf(c), PairOf(d), PairOf(e), PairOf(f)];
  }

  lemma StringText(s: string)
    requires Bare(s)
    ensures Quote(s) == "\"" + s + "\""
  {
    BareIsWritten(s);
    hide WriteChars;
  }

  // ---- the stored checkpoint --------------------------------------------------------------------------------

  function Flag(b: bool): string {
    if b then "true" else "false"
  }

  lemma CitationText(c: Citation)
    ensures Dumps(CitationJson(c)) == Braces([Pair("title", Quote(c.title)), Pair("url", Quote(c.url))])
  {
    assert Bare("title") && Bare("url") && Dumps(Str(c.title)) == Quote(c.title) && Dumps(Str(c.url)) == Quote(c.url);
    hide Bare, Quote, Braces, Pair, Dumps;
    Object2(Member("title", Str(c.title)), Member("url", Str(c.url)));
  }

  lemma EvidenceKeys()
    ensures Bare("answer_complete") && Bare("incomplete_marker") && Bare("provider_terminal")
    ensures Bare("refusal_marker") && Bare("web_search_executed")
  {
  }

  lemma FlagText(b: bool)
    ensures Dumps(Bool(b)) == Flag(b)
  {
  }

  lemma EvidenceText(e: Evidence)
    ensures Dumps(EvidenceJson(e))
            == Braces([Pair("answer_complete", Flag(e.answerComplete)),
                       Pair("incomplete_marker", Flag(e.incompleteMarker)),
                       Pair("provider_terminal", Flag(e.providerTerminal)),
                       Pair("refusal_marker", Flag(e.refusalMarker)),
                       Pair("web_search_executed", Flag(e.webSearchExecuted))])
  {
    EvidenceKeys();
    FlagText(e.answerComplete);
    FlagText(e.incompleteMarker);
    FlagText(e.providerTerminal);
    FlagText(e.refusalMarker);
    FlagText(e.webSearchExecuted);
    hide Bare, Braces, Pair, Dumps, Flag;
    Object5(Member("answer_complete", Bool(e.answerComplete)), Member("incomplete_marker", Bool(e.incompleteMarker)),
            Member("provider_terminal", Bool(e.providerTerminal)), Member("refusal_marker", Bool(e.refusalMarker)),
            Member("web_search_executed", Bool(e.webSearchExecuted)));
  }

  lemma UsageKeys()
    ensures Bare("cache_write_input_tokens") && Bare("cached_input_tokens") && Bare("input_tokens")
    ensures Bare("output_tokens") && Bare("reasoning_tokens") && Bare("web_tool_calls")
  {
  }

  function UsageText(u: Option<Usage>): string {
    match u
    case None => "null"
    case Some(u) =>
      Braces([Pair("cache_write_input_tokens", if u.cacheWrite.None? then "null" else Digits(u.cacheWrite.value)),
              Pair("cached_input_tokens", Digits(u.cachedInput)), Pair("input_tokens", Digits(u.input)),
              Pair("output_tokens", Digits(u.output)), Pair("reasoning_tokens", Digits(u.reasoning)),
              Pair("web_tool_calls", Digits(u.webToolCalls))])
  }

  lemma DigitsText(n: nat)
    ensures Dumps(Int(n)) == Digits(n)
  {
    hide Digits;
  }

  lemma UsageIsWritten(u: Option<Usage>)
    ensures Dumps(UsageJson(u)) == UsageText(u)
  {
    if u.Some? {
      var v := u.value;
      var written := if v.cacheWrite.None? then Null else Int(v.cacheWrite.value);
      UsageKeys();
      assert Dumps(Null) == "null";
      if v.cacheWrite.Some? {
        DigitsText(v.cacheWrite.value);
      }
      DigitsText(v.cachedInput);
      DigitsText(v.input);
      DigitsText(v.output);
      DigitsText(v.reasoning);
      DigitsText(v.webToolCalls);
      hide Bare, Braces, Pair, Dumps, Digits;
      Object6(Member("cache_write_input_tokens", written), Member("cached_input_tokens", Int(v.cachedInput)),
              Member("input_tokens", Int(v.input)), Member("output_tokens", Int(v.output)),
              Member("reasoning_tokens", Int(v.reasoning)), Member("web_tool_calls", Int(v.webToolCalls)));
    }
  }

  function CitationTexts(cs: seq<Citation>): (texts: seq<string>)
    ensures |texts| == |cs|
  {
    seq(|cs|, i requires 0 <= i < |cs| => Braces([Pair("title", Quote(cs[i].title)), Pair("url", Quote(cs[i].url))]))
  }

  lemma WriteItemsIs(items: seq<Value>)
    requires items != []
    ensures WriteItems(items) == Dumps(items[0]) + (if |items| == 1 then "]" else "," + WriteItems(items[1..]))
  {
    hide Dumps;
  }

  lemma {:induction false} CitationsAreJoined(cs: seq<Citation>)
    requires cs != []
    ensures WriteItems(CitationsJson(cs)) == Join(",", CitationTexts(cs)) + "]"
    decreases |cs|
  {
    var items, texts := CitationsJson(cs), CitationTexts(cs);
    CitationText(cs[0]);
    assert items[0] == CitationJson(cs[0]) && |items| == |cs|;
    assert items[1..] == CitationsJson(cs[1..]) && texts[1..] == CitationTexts(cs[1..]);
    assert Dumps(items[0]) == texts[0];
    assert Join(",", texts) == if |texts| == 1 then texts[0] else texts[0] + "," + Join(",", texts[1..]);
    hide *;
    WriteItemsIs(items);
    if |cs| > 1 {
      CitationsAreJoined(cs[1..]);
      Regrouped(texts[0], Join(",", texts[1..]), "]");
    }
  }

  lemma CitationsText(cs: seq<Citation>)
    ensures Dumps(Arr(CitationsJson(cs))) == "[" + Join(",", CitationTexts(cs)) + "]"
  {
    if cs != [] {
      CitationsAreJoined(cs);
    }
    hide WriteItems, CitationTexts, CitationJson;
  }

  lemma AnswerKeys()
    ensures Bare("citations") && Bare("evidence") && Bare("text") && Bare("usage")
  {
  }

  /** The stored checkpoint of an answer, name by name. */
  lemma CheckpointText(a: Answer)
    ensures Checkpoint(a)
            == Braces([Pair("citations", "[" + Join(",", CitationTexts(a.citations)) + "]"),
                       Pair("evidence", Braces([Pair("answer_complete", Flag(a.evidence.answerComplete)),
                                                Pair("incomplete_marker", Flag(a.evidence.incompleteMarker)),
                                                Pair("provider_terminal", Flag(a.evidence.providerTerminal)),
                                                Pair("refusal_marker", Flag(a.evidence.refusalMarker)),
                                                Pair("web_search_executed", Flag(a.evidence.webSearchExecuted))])),
                       Pair("text", Quote(a.text)), Pair("usage", UsageText(a.usage))])
  {
    AnswerKeys();
    CitationsText(a.citations);
    EvidenceText(a.evidence);
    UsageIsWritten(a.usage);
    assert Dumps(Str(a.text)) == Quote(a.text);
    hide Bare, Braces, Pair, Join, CitationTexts, CitationsJson, EvidenceJson, UsageJson, UsageText, Flag, Quote, Dumps;
    Object4(Member("citations", Arr(CitationsJson(a.citations))), Member("evidence", EvidenceJson(a.evidence)),
            Member("text", Str(a.text)), Member("usage", UsageJson(a.usage)));
  }

  // ---- the hashed request --------------------------------------------------------------------------------------

  lemma FingerprintKeys()
    ensures Bare("consent_version") && Bare("fingerprint_version") && Bare("kind") && Bare("owner") && Bare("prompt")
    ensures Bare("search") && Bare("research")
  {
  }

  /** The text that is hashed to recognise a request. */
  lemma FingerprintText(owner: string, kind: OperationKind, prompt: string, consent: string)
    ensures Fingerprint(owner, kind, prompt, consent)
            == Braces([Pair("consent_version", Quote(consent)), Pair("fingerprint_version", "2"),
                       Pair("kind", "\"" + (if kind.Search? then "search" else "research") + "\""),
                       Pair("owner", Quote(owner)), Pair("prompt", Quote(prompt))])
  {
    FingerprintKeys();
    KindText(kind);
    DigitsText(2);
    assert Digits(2) == "2";
    assert Dumps(Str(owner)) == Quote(owner) && Dumps(Str(prompt)) == Quote(prompt)
           && Dumps(Str(consent)) == Quote(consent);
    hide Bare, Braces, Pair, Quote, Dumps, Digits, KindValue;
    Object5(Member("consent_version", Str(consent)), Member("fingerprint_version", Int(FINGERPRINT_VERSION)),
            Member("kind", Str(KindValue(kind))), Member("owner", Str(owner)), Member("prompt", Str(prompt)));
  }

  lemma KindText(kind: OperationKind)
    ensures Dumps(Str(KindValue(kind))) == "\"" + (if kind.Search? then "search" else "research") + "\""
  {
    FingerprintKeys();
    StringText(KindValue(kind));
    hide Bare, Quote;
  }

  // ---- the cursors ------------------------------------------------------------------------------------------------

  lemma CursorKeys()
    ensures Bare("completed_at_ms") && Bare("id") && Bare("analyzed") && Bare("at_ms") && Bare("v")
  {
  }

  lemma UuidIsBare(s: string)
    requires C.Uuid(s)
    ensures Bare(s)
  {
    forall i | 0 <= i < |s|
      ensures s[i] >= ' ' && s[i] != '"' && s[i] != '\\'
    {
      assert s[i] == '-' || C.LowerHex(s[i]);
    }
  }

  lemma HistoryCursorText(at: nat, id: string)
    requires C.Uuid(id)
    ensures Dumps(C.HistoryJson(at, id))
            == Braces([Pair("completed_at_ms", Digits(at)), Pair("id", "\"" + id + "\"")])
  {
    CursorKeys();
    UuidIsBare(id);
    StringText(id);
    DigitsText(at);
    assert Dumps(Str(id)) == Quote(id);
    hide Bare, Braces, Pair, Digits, Quote, Dumps, C.Uuid;
    Object2(Member("completed_at_ms", Int(at)), Member("id", Str(id)));
  }

  lemma InboxCursorText(p: C.Position)
    requires C.Uuid(p.id)
    ensures Dumps(C.InboxJson(p))
            == Braces([Pair("analyzed", Flag(p.analyzed)), Pair("at_ms", Digits(p.at)), Pair("id", "\"" + p.id + "\""),
                       Pair("v", "2")])
  {
    CursorKeys();
    UuidIsBare(p.id);
    StringText(p.id);
    FlagText(p.analyzed);
    DigitsText(p.at);
    DigitsText(2);
    assert Digits(2) == "2";
    assert Dumps(Str(p.id)) == Quote(p.id);
    hide Bare, Braces, Pair, Digits, Quote, Dumps, Flag, C.Uuid;
    Object4(Member("analyzed", Bool(p.analyzed)), Member("at_ms", Int(p.at)), Member("id", Str(p.id)),
            Member("v", Int(2)));
  }

  /** Which members make a history cursor: the two names and no other, a timestamp and an identifier. */
  ghost predicate NamesHistory(members: seq<Member>, at: nat, id: string) {
    && (forall m :: m in members ==> m.key == "completed_at_ms" || m.key == "id")
    && Get(members, "completed_at_ms") == Some(Int(at)) && Get(members, "id") == Some(Str(id)) && C.Uuid(id)
  }

  /** And which an inbox cursor of version 2. */
  ghost predicate NamesPosition(members: seq<Member>, p: C.Position) {
    && (forall m :: m in members ==> m.key == "v" || m.key == "at_ms" || m.key == "analyzed" || m.key == "id")
    && Get(members, "v") == Some(Int(2)) && Get(members, "at_ms") == Some(Int(p.at))
    && Get(members, "analyzed") == Some(Bool(p.analyzed)) && Get(members, "id") == Some(Str(p.id)) && C.Uuid(p.id)
  }

  lemma {:induction false} FoundIsThere(members: seq<Member>, key: string)
    ensures Get(members, key).Some? <==> key in C.Keys(members)
  {
    if members != [] {
      var n := |members| - 1;
      FoundIsThere(members[..n], key);
      assert members == members[..n] + [members[n]];
    }
  }

  /** A cursor is accepted as a history cursor exactly when its payload is one. */
  lemma HistoryIff(value: string, at: nat, id: string)
    ensures C.DecodeHistory(value) == Some((at, id))
            <==> C.Payload(value).Some? && NamesHistory(C.Payload(value).value, at, id)
  {
    if C.Payload(value).Some? {
      var members := C.Payload(value).value;
      FoundIsThere(members, "completed_at_ms");
      FoundIsThere(members, "id");
      hide C.Payload, Get, C.Uuid;
      KeysAre(members);
    }
  }

  lemma KeysAre(members: seq<Member>)
    ensures C.Keys(members) == {"completed_at_ms", "id"}
            <==> && (forall m :: m in members ==> m.key == "completed_at_ms" || m.key == "id")
                 && "completed_at_ms" in C.Keys(members) && "id" in C.Keys(members)
    ensures C.Keys(members) == {"v", "at_ms", "analyzed", "id"}
            <==> && (forall m :: m in members ==>
                       m.key == "v" || m.key == "at_ms" || m.key == "analyzed" || m.key == "id")
                 && "v" in C.Keys(members) && "at_ms" in C.Keys(members) && "analyzed" in C.Keys(members)
                 && "id" in C.Keys(members)
  {
    assert forall m :: m in members ==> m.key in C.Keys(members);
  }

  /** A position is either of version 2, or a history cursor, whose rows are all analyzed. */
  lemma InboxIff(value: string, p: C.Position)
    ensures C.DecodeInbox(value) == Some(p)
            <==> && C.Payload(value).Some?
                 && (NamesPosition(C.Payload(value).value, p)
                     || (p.analyzed && NamesHistory(C.Payload(value).value, p.at, p.id)))
  {
    if C.Payload(value).Some? {
      var members := C.Payload(value).value;
      FoundIsThere(members, "completed_at_ms");
      FoundIsThere(members, "id");
      FoundIsThere(members, "v");
      FoundIsThere(members, "at_ms");
      FoundIsThere(members, "analyzed");
      hide C.Payload, Get, C.Uuid;
      KeysAre(members);
      assert |"v"| == 1 && |"at_ms"| == 5;
    }
  }
}
