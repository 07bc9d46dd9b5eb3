// Research values: requests, observations, answers, and the two JSON texts derived from them.

module ResearchDomain {
  import opened Text
  import Json

  datatype OperationKind = Search | Research

  datatype Lifecycle =
    | Admitted | Submitting | Running | Validating | Saved | Refused | Failed | Incomplete
    | CancelRequested | Cancelled | Timeout | SubmissionUnknown

  predicate Terminal(state: Lifecycle) {
    state.Saved? || state.Refused? || state.Failed? || state.Incomplete? || state.Cancelled? || state.Timeout?
    || state.SubmissionUnknown?
  }

  datatype Cleanup = NotRequired | Pending | Deleted | CleanupFailed | CleanupUnknown

  datatype Accounting = Reserved | Reconciled | Unknown

  datatype ErrorCode =
    | DISABLED | NOT_CONFIGURED | CAPABILITY_UNAVAILABLE | INVALID_REQUEST | BUSY | IDEMPOTENCY_CONFLICT | AUTH
    | RATE_LIMIT | PROVIDER_QUOTA | PROVIDER_UNAVAILABLE | REFUSED | INVALID_RESULT | INCOMPLETE_RESULT
    | RESULT_TOO_LARGE | NO_WEB_EVIDENCE | TIMEOUT | CANCELLED | SUBMISSION_UNKNOWN | RESULT_EXPIRED
    | ACCOUNTING_UNKNOWN | BUDGET_EXCEEDED | STORAGE

  // ---- answers ----------------------------------------------------------------

  datatype Citation = Citation(url: string, title: string)

  datatype Evidence = Evidence(
    providerTerminal: bool, answerComplete: bool, webSearchExecuted: bool, refusalMarker: bool, incompleteMarker: bool)

  datatype Usage = Usage(
    input: nat, cachedInput: nat, output: nat, reasoning: nat, webToolCalls: nat, cacheWrite: Option<nat>)

  datatype Answer = Answer(text: string, citations: seq<Citation>, evidence: Evidence, usage: Option<Usage>)

  const MAX_CITATION_COUNT: nat := 200

  predicate ValidCitation(c: Citation) {
    c.url != "" && forall i :: 0 <= i < |c.url| ==> !IsSpace(c.url[i])
  }

  predicate ValidUsage(u: Usage) {
    && u.cachedInput <= u.input
    && u.reasoning <= u.output
    && (u.cacheWrite.Some? ==> u.cachedInput + u.cacheWrite.value <= u.input)
  }

  /** The checks every answer passes when it is built. */
  predicate ValidAnswer(a: Answer) {
    && a.text != ""
    && |a.citations| <= MAX_CITATION_COUNT
    && (forall i :: 0 <= i < |a.citations| ==> ValidCitation(a.citations[i]))
    && (a.usage.Some? ==> ValidUsage(a.usage.value))
  }

  /** Why evidence is not that of a finished result, if it is not. */
  function CompletionError(e: Evidence): Option<ErrorCode> {
    if e.refusalMarker then Some(REFUSED)
    else if e.incompleteMarker || !e.answerComplete || !e.providerTerminal then Some(INCOMPLETE_RESULT)
    else if !e.webSearchExecuted then Some(NO_WEB_EVIDENCE)
    else None
  }

  // ---- what a provider may answer ----------------------------------------------

  datatype ObservationKind = IsPending | IsRunning | IsComplete | IsRefused | IsFailed | IsCancelled | IsUncertain

  datatype Observation = Observation(
    kind: ObservationKind, handle: Option<string>, answer: Option<Answer>, error: Option<ErrorCode>)

  /** The checks every observation passes when it is built. */
  predicate ValidObservation(o: Observation) {
    if o.kind.IsComplete? then
      && o.answer.Some? && o.handle.Some? && o.error.None?
      && ValidAnswer(o.answer.value)
      && CompletionError(o.answer.value.evidence).None?
    else
      && o.answer.None?
      && (if o.kind.IsPending? || o.kind.IsRunning? then o.error.None? else o.error.Some?)
  }

  // ---- the checkpoint text -------------------------------------------------------

  function CitationJson(c: Citation): Json.Value {
    Json.Obj([Json.Member("title", Json.Str(c.title)), Json.Member("url", Json.Str(c.url))])
  }

  function EvidenceJson(e: Evidence): Json.Value {
    Json.Obj([
      Json.Member("answer_complete", Json.Bool(e.answerComplete)),
      Json.Member("incomplete_marker", Json.Bool(e.incompleteMarker)),
      Json.Member("provider_terminal", Json.Bool(e.providerTerminal)),
      Json.Member("refusal_marker", Json.Bool(e.refusalMarker)),
      Json.Member("web_search_executed", Json.Bool(e.webSearchExecuted))])
  }

  function UsageJson(u: Option<Usage>): Json.Value {
    match u
    case None => Json.Null
    case Some(u) =>
      Json.Obj([
        Json.Member("cache_write_input_tokens", if u.cacheWrite.None? then Json.Null else Json.Int(u.cacheWrite.value)),
        Json.Member("cached_input_tokens", Json.Int(u.cachedInput)),
        Json.Member("input_tokens", Json.Int(u.input)),
        Json.Member("output_tokens", Json.Int(u.output)),
        Json.Member("reasoning_tokens", Json.Int(u.reasoning)),
        Json.Member("web_tool_calls", Json.Int(u.webToolCalls))])
  }

  function CitationsJson(cs: seq<Citation>): seq<Json.Value> {
    seq(|cs|, i requires 0 <= i < |cs| => CitationJson(cs[i]))
  }

  function AnswerJson(a: Answer): Json.Value {
    Json.Obj([
      Json.Member("citations", Json.Arr(CitationsJson(a.citations))),
      Json.Member("evidence", EvidenceJson(a.evidence)),
      Json.Member("text", Json.Str(a.text)),
      Json.Member("usage", UsageJson(a.usage))])
  }

  /** _answer_checkpoint: compact JSON with the keys of every object in sorted order. */
  function Checkpoint(a: Answer): string {
    Json.Dumps(AnswerJson(a))
  }

  // ---- reading it back ------------------------------------------------------------

  function StrOf(v: Json.Value, key: string): Option<string> {
    if v.Obj? && Json.Get(v.members, key).Some? && Json.Get(v.members, key).value.Str?
    then Some(Json.Get(v.members, key).value.s) else None
  }

  function NatOf(v: Json.Value, key: string): Option<nat> {
    if v.Obj? && Json.Get(v.members, key).Some? && Json.Get(v.members, key).value.Int?
        && Json.Get(v.members, key).value.n >= 0
    then Some(Json.Get(v.members, key).value.n) else None
  }

  function BoolOf(v: Json.Value, key: string): Option<bool> {
    if v.Obj? && Json.Get(v.members, key).Some? && Json.Get(v.members, key).value.Bool?
    then Some(Json.Get(v.members, key).value.b) else None
  }

  function CitationOf(v: Json.Value): Option<Citation> {
    var url, title := StrOf(v, "url"), StrOf(v, "title");
    if url.Some? && title.Some? then Some(Citation(url.value, title.value)) else None
  }

  function CitationsOf(items: seq<Json.Value>): Option<seq<Citation>> {
    if items == [] then Some([])
    else
      var first, rest := CitationOf(items[0]), CitationsOf(items[1..]);
      if first.Some? && rest.Some? then Some([first.value] + rest.value) else None
  }

  function EvidenceOf(v: Json.Value): Option<Evidence> {
    var t, c, w := BoolOf(v, "provider_terminal"), BoolOf(v, "answer_complete"), BoolOf(v, "web_search_executed");
    var r, i := BoolOf(v, "refusal_marker"), BoolOf(v, "incomplete_marker");
    if t.Some? && c.Some? && w.Some? && r.Some? && i.Some?
    then Some(Evidence(t.value, c.value, w.value, r.value, i.value)) else None
  }

  /** `None` when the payload is malformed; `Some(None)` when it carries no usage. */
  function UsageOf(v: Json.Value): Option<Option<Usage>> {
    if v.Null? then Some(None)
    else if !v.Obj? then None
    else
      var i, c, o := NatOf(v, "input_tokens"), NatOf(v, "cached_input_tokens"), NatOf(v, "output_tokens");
      var r, w := NatOf(v, "reasoning_tokens"), NatOf(v, "web_tool_calls");
      var written := Json.Get(v.members, "cache_write_input_tokens");
      var absent := written.None? || written.value.Null?;
      var cacheWrite := NatOf(v, "cache_write_input_tokens");
      if i.Some? && c.Some? && o.Some? && r.Some? && w.Some? && (absent || cacheWrite.Some?)
      then Some(Some(Usage(i.value, c.value, o.value, r.value, w.value, if absent then None else cacheWrite)))
      else None
  }

  function AnswerOf(v: Json.Value): Option<Answer> {
    if !v.Obj? then None
    else
      var citations := Json.Get(v.members, "citations");
      var evidence, usage := Json.Get(v.members, "evidence"), Json.Get(v.members, "usage");
      var text := StrOf(v, "text");
      var items := if citations.None? then Some([])
                   else if citations.value.Arr? then CitationsOf(citations.value.items) else None;
      var facts := if evidence.None? then None else EvidenceOf(evidence.value);
      var spent := if usage.None? then Some(None) else UsageOf(usage.value);
      if text.Some? && items.Some? && facts.Some? && spent.Some?
      then
        var answer := Answer(text.value, items.value, facts.value, spent.value);
        if ValidAnswer(answer) then Some(answer) else None
      else None
  }

  /** _answer_from_checkpoint. */
  function FromCheckpoint(payload: Option<string>): Option<Answer> {
    if payload.None? || payload.value == "" then None
    else
      match Json.Loads(payload.value)
      case None => None
      case Some(v) => AnswerOf(v)
  }

  lemma {:induction false} GetOfPrefix(members: seq<Json.Member>, last: Json.Member, key: string)
    ensures Json.Get(members + [last], key) == if last.key == key then Some(last.value) else Json.Get(members, key)
  {
    var all := members + [last];
    assert all[..|all| - 1] == members;
  }

  lemma Lookup2(a: Json.Member, b: Json.Member, key: string)
    ensures Json.Get([a, b], key)
            == if b.key == key then Some(b.value) else if a.key == key then Some(a.value) else None
  {
    GetOfPrefix([], a, key);
    GetOfPrefix([a], b, key);
    assert [a] + [b] == [a, b] && [] + [a] == [a];
  }

  lemma Lookup4(a: Json.Member, b: Json.Member, c: Json.Member, d: Json.Member, key: string)
    ensures Json.Get([a, b, c, d], key)
            == if d.key == key then Some(d.value) else if c.key == key then Some(c.value)
               else if b.key == key then Some(b.value) else if a.key == key then Some(a.value) else None
  {
    Lookup2(a, b, key);
    GetOfPrefix([a, b], c, key);
    GetOfPrefix([a, b, c], d, key);
    assert [a, b] + [c] == [a, b, c] && [a, b, c] + [d] == [a, b, c, d];
  }

  lemma Lookup5(a: Json.Member, b: Json.Member, c: Json.Member, d: Json.Member, e: Json.Member, key: string)
    ensures Json.Get([a, b, c, d, e], key)
            == if e.key == key then Some(e.value) else if d.key == key then Some(d.value)
               else if c.key == key then Some(c.value) else if b.key == key then Some(b.value)
               else if a.key == key then Some(a.value) else None
  {
    Lookup4(a, b, c, d, key);
    GetOfPrefix([a, b, c, d], e, key);
    assert [a, b, c, d] + [e] == [a, b, c, d, e];
  }

  lemma Lookup6(a: Json.Member, b: Json.Member, c: Json.Member, d: Json.Member, e: Json.Member, f: Json.Member,
                key: string)
    ensures Json.Get([a, b, c, d, e, f], key)
            == if f.key == key then Some(f.value) else if e.key == key then Some(e.value)
               else if d.key == key then Some(d.value) else if c.key == key then Some(c.value)
               else if b.key == key then Some(b.value) else if a.key == key then Some(a.value) else None
  {
    Lookup5(a, b, c, d, e, key);
    GetOfPrefix([a, b, c, d, e], f, key);
    assert [a, b, c, d, e] + [f] == [a, b, c, d, e, f];
  }

  lemma CitationComesBack(c: Citation)
    ensures CitationOf(CitationJson(c)) == Some(c)
  {
    var title, url := Json.Member("title", Json.Str(c.title)), Json.Member("url", Json.Str(c.url));
    Lookup2(title, url, "title");
    Lookup2(title, url, "url");
  }

  lemma {:induction false} CitationsComeBack(cs: seq<Citation>)
    ensures CitationsOf(CitationsJson(cs)) == Some(cs)
  {
    if cs != [] {
      CitationComesBack(cs[0]);
      CitationsComeBack(cs[1..]);
      assert CitationsJson(cs)[1..] == CitationsJson(cs[1..]);
      assert cs == [cs[0]] + cs[1..];
    }
  }

  lemma EvidenceComesBack(e: Evidence)
    ensures EvidenceOf(EvidenceJson(e)) == Some(e)
  {
    var c := Json.Member("answer_complete", Json.Bool(e.answerComplete));
    var i := Json.Member("incomplete_marker", Json.Bool(e.incompleteMarker));
    var t := Json.Member("provider_terminal", Json.Bool(e.providerTerminal));
    var r := Json.Member("refusal_marker", Json.Bool(e.refusalMarker));
    var w := Json.Member("web_search_executed", Json.Bool(e.webSearchExecuted));
    hide Json.Get;
    Lookup5(c, i, t, r, w, "answer_complete");
    Lookup5(c, i, t, r, w, "incomplete_marker");
    Lookup5(c, i, t, r, w, "provider_terminal");
    Lookup5(c, i, t, r, w, "refusal_marker");
    Lookup5(c, i, t, r, w, "web_search_executed");
  }

  lemma UsageComesBack(u: Option<Usage>)
    ensures UsageOf(UsageJson(u)) == Some(u)
  {
    if u.Some? {
      var v := u.value;
      var k := Json.Member("cache_write_input_tokens",
                           if v.cacheWrite.None? then Json.Null else Json.Int(v.cacheWrite.value));
      var c := Json.Member("cached_input_tokens", Json.Int(v.cachedInput));
      var i := Json.Member("input_tokens", Json.Int(v.input));
      var o := Json.Member("output_tokens", Json.Int(v.output));
      var r := Json.Member("reasoning_tokens", Json.Int(v.reasoning));
      var w := Json.Member("web_tool_calls", Json.Int(v.webToolCalls));
      hide Json.Get;
      Lookup6(k, c, i, o, r, w, "cache_write_input_tokens");
      Lookup6(k, c, i, o, r, w, "cached_input_tokens");
      Lookup6(k, c, i, o, r, w, "input_tokens");
      Lookup6(k, c, i, o, r, w, "output_tokens");
      Lookup6(k, c, i, o, r, w, "reasoning_tokens");
      Lookup6(k, c, i, o, r, w, "web_tool_calls");
    }
  }

  lemma AnswerComesBack(a: Answer)
    requires ValidAnswer(a)
    ensures AnswerOf(AnswerJson(a)) == Some(a)
  {
    var c := Json.Member("citations", Json.Arr(CitationsJson(a.citations)));
    var e := Json.Member("evidence", EvidenceJson(a.evidence));
    var t, u := Json.Member("text", Json.Str(a.text)), Json.Member("usage", UsageJson(a.usage));
    CitationsComeBack(a.citations);
    EvidenceComesBack(a.evidence);
    UsageComesBack(a.usage);
    hide Json.Get, CitationsOf, CitationsJson, EvidenceOf, UsageOf, CitationJson, EvidenceJson, UsageJson;
    Lookup4(c, e, t, u, "citations");
    Lookup4(c, e, t, u, "evidence");
    Lookup4(c, e, t, u, "text");
    Lookup4(c, e, t, u, "usage");
  }

  /** The stored checkpoint of an answer decodes to that answer, with or without usage. */
  lemma CheckpointRoundTrip(a: Answer)
    requires ValidAnswer(a)
    ensures FromCheckpoint(Some(Checkpoint(a))) == Some(a)
  {
    AnswerComesBack(a);
    Json.LoadsOfDumps(AnswerJson(a));
    Json.FirstChar(AnswerJson(a));
  }

  // ---- the request fingerprint ------------------------------------------------------

  const FINGERPRINT_VERSION := 2

  function KindValue(kind: OperationKind): string {
    match kind
    case Search => "search"
    case Research => "research"
  }

  /** The text whose digest is the fingerprint; the digest is taken to be injective. */
  function Fingerprint(owner: string, kind: OperationKind, prompt: string, consent: string): string {
    Json.Dumps(FingerprintJson(owner, kind, prompt, consent))
  }

  function FingerprintJson(owner: string, kind: OperationKind, prompt: string, consent: string): Json.Value {
    Json.Obj([
      Json.Member("consent_version", Json.Str(consent)),
      Json.Member("fingerprint_version", Json.Int(FINGERPRINT_VERSION)),
      Json.Member("kind", Json.Str(KindValue(kind))),
      Json.Member("owner", Json.Str(owner)),
      Json.Member("prompt", Json.Str(prompt))])
  }

  /** Two requests share a fingerprint exactly when owner, kind, prompt and consent all agree. */
  lemma FingerprintIdentifies(owner: string, kind: OperationKind, prompt: string, consent: string,
                              owner': string, kind': OperationKind, prompt': string, consent': string)
    ensures Fingerprint(owner, kind, prompt, consent) == Fingerprint(owner', kind', prompt', consent')
            <==> owner == owner' && kind == kind' && prompt == prompt' && consent == consent'
  {
    var v, w := FingerprintJson(owner, kind, prompt, consent), FingerprintJson(owner', kind', prompt', consent');
    if Json.Dumps(v) == Json.Dumps(w) {
      Json.DumpsIsInjective(v, w);
      assert v.members[0] == w.members[0] && v.members[2] == w.members[2] && v.members[3] == w.members[3]
             && v.members[4] == w.members[4];
      assert KindValue(kind)[2] == KindValue(kind')[2];
    }
  }
}
