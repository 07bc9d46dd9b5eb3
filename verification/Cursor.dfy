// Opaque review cursors: sorted compact JSON, base64url, padding stripped.

module Cursor {
  import opened Text
  import opened Base64
  import Json
  import opened ResearchDomain

  datatype Position = Position(at: nat, analyzed: bool, id: string)

  // ---- text and bytes -----------------------------------------------------------------

  predicate Ascii(s: string) {
    forall i :: 0 <= i < |s| ==> s[i] as int < 128
  }

  function Bytes(s: string): seq<Byte>
    requires Ascii(s)
  {
    seq(|s|, i requires 0 <= i < |s| => s[i] as int)
  }

  function FromAscii(b: seq<Byte>): Option<string> {
    if forall i :: 0 <= i < |b| ==> b[i] < 128
    then Some(seq(|b|, i requires 0 <= i < |b| => b[i] as char)) else None
  }

  lemma BytesCount(s: string)
    requires Ascii(s)
    ensures |Bytes(s)| == |s| && |Sextets(Bytes(s))| >= |s|
  {
  }

  lemma AsciiComesBack(s: string)
    requires Ascii(s)
    ensures FromAscii(Bytes(s)) == Some(s)
  {
    var b := Bytes(s);
    assert seq(|b|, i requires 0 <= i < |b| => b[i] as char) == s;
  }

  // ---- identifiers ------------------------------------------------------------------------

  predicate LowerHex(c: char) {
    '0' <= c <= '9' || 'a' <= c <= 'f'
  }

  /** A canonical lower-case UUID of version 4 and the RFC 4122 variant. */
  predicate Uuid(s: string) {
    && |s| == 36
    && (forall i :: 0 <= i < 36 ==> if i == 8 || i == 13 || i == 18 || i == 23 then s[i] == '-' else LowerHex(s[i]))
    && s[14] == '4' && (s[19] == '8' || s[19] == '9' || s[19] == 'a' || s[19] == 'b')
  }

  // ---- encoding -----------------------------------------------------------------------------

  function HistoryJson(at: nat, id: string): Json.Value {
    Json.Obj([Json.Member("completed_at_ms", Json.Int(at)), Json.Member("id", Json.Str(id))])
  }

  function InboxJson(p: Position): Json.Value {
    Json.Obj([
      Json.Member("analyzed", Json.Bool(p.analyzed)), Json.Member("at_ms", Json.Int(p.at)),
      Json.Member("id", Json.Str(p.id)), Json.Member("v", Json.Int(2))])
  }

  function Opaque(v: Json.Value): string
    requires Ascii(Json.Dumps(v))
  {
    Stripped(Encode(UrlSafe, Bytes(Json.Dumps(v))))
  }

  // ---- decoding --------------------------------------------------------------------------------

  predicate Cursorish(value: string) {
    value != "" && forall i :: 0 <= i < |value| ==> ValueOf(UrlSafe, value[i]).Some?
  }

  /** `_decode_cursor_payload`: the members of the object, if it is one. */
  function Payload(value: string): Option<seq<Json.Member>> {
    if !Cursorish(value) then None
    else
      match Decode(UrlSafe, value + Repeat('=', PaddingFor(|value|)))
      case None => None
      case Some(raw) =>
        match FromAscii(raw)
        case None => None
        case Some(text) =>
          match Json.Loads(text)
          case Some(Obj(members)) => Some(members)
          case _ => None
  }

  function Keys(members: seq<Json.Member>): set<string> {
    set m | m in members :: m.key
  }

  function TimestampOf(members: seq<Json.Member>, key: string): Option<nat> {
    match Json.Get(members, key)
    case Some(Int(n)) => if n >= 0 then Some(n) else None
    case _ => None
  }

  function IdOf(members: seq<Json.Member>): Option<string> {
    match Json.Get(members, "id")
    case Some(Str(s)) => if Uuid(s) then Some(s) else None
    case _ => None
  }

  function DecodeHistory(value: string): Option<(nat, string)> {
    match Payload(value)
    case None => None
    case Some(members) =>
      if Keys(members) != {"completed_at_ms", "id"} then None
      else
        var at, id := TimestampOf(members, "completed_at_ms"), IdOf(members);
        if at.Some? && id.Some? then Some((at.value, id.value)) else None
  }

  function DecodeInbox(value: string): Option<Position> {
    match Payload(value)
    case None => None
    case Some(members) =>
      if Keys(members) == {"completed_at_ms", "id"} then
        var at, id := TimestampOf(members, "completed_at_ms"), IdOf(members);
        if at.Some? && id.Some? then Some(Position(at.value, true, id.value)) else None
      else if Keys(members) != {"v", "at_ms", "analyzed", "id"} then None
      else
        var at, id := TimestampOf(members, "at_ms"), IdOf(members);
        match Json.Get(members, "analyzed")
        case Some(Bool(analyzed)) =>
          if Json.Get(members, "v") == Some(Json.Int(2)) && at.Some? && id.Some?
          then Some(Position(at.value, analyzed, id.value)) else None
        case _ => None
  }

  // ---- round trips ---------------------------------------------------------------------------------

  lemma {:induction false} DigitsAreAscii(n: nat)
    ensures Ascii(Json.Digits(n)) && Json.Digits(n) != ""
  {
    if n >= 10 {
      DigitsAreAscii(n / 10);
    }
  }

  lemma {:induction false} QuotedIsAscii(s: string)
    requires Ascii(s)
    ensures Ascii(Json.WriteChars(s)) && Ascii(Json.Quote(s))
  {
    if s != "" {
      assert Ascii(s[1..]);
      QuotedIsAscii(s[1..]);
      assert Ascii(Json.WriteChar(s[0]));
    }
  }

  /** Ascii JSON comes back from its opaque form. */
  lemma OpaqueComesBack(v: Json.Value)
    requires Ascii(Json.Dumps(v)) && v.Obj?
    ensures Payload(Opaque(v)) == Some(v.members)
  {
    hide Bytes, Encode, Decode, Stripped, Json.Dumps, Json.Loads, FromAscii, Letters, Sextets, Repeat, PaddingFor;
    var text := Json.Dumps(v);
    var b := Bytes(text);
    PaddingComesBack(UrlSafe, b);
    DecodeOfEncode(UrlSafe, b);
    AsciiComesBack(text);
    Json.LoadsOfDumps(v);
    Json.FirstChar(v);
    LettersAreCursorish(Sextets(b));
    BytesCount(text);
  }

  lemma {:induction false} LettersAreCursorish(s: seq<Sextet>)
    ensures forall i :: 0 <= i < |s| ==> ValueOf(UrlSafe, Letters(UrlSafe, s)[i]).Some?
  {
    if s != [] {
      LettersAreCursorish(s[1..]);
      ValueOfLetter(UrlSafe, s[0]);
      hide Letter, ValueOf;
    }
  }

  /** Members the cursors use: scalars in plain characters. */
  predicate Plain(m: Json.Member) {
    Ascii(m.key) && (m.value.Bool? || (m.value.Int? && m.value.n >= 0) || (m.value.Str? && Ascii(m.value.s)))
  }

  lemma PlainIsAscii(m: Json.Member)
    requires Plain(m)
    ensures Ascii(Json.Quote(m.key)) && Ascii(Json.Dumps(m.value))
  {
    QuotedIsAscii(m.key);
    match m.value {
      case Int(n) => DigitsAreAscii(n);
      case Str(s) => QuotedIsAscii(s);
      case _ =>
    }
  }

  lemma {:induction false} PlainMembersAreAscii(members: seq<Json.Member>)
    requires members != [] && forall i :: 0 <= i < |members| ==> Plain(members[i])
    ensures Ascii(Json.WriteMembers(members))
  {
    PlainIsAscii(members[0]);
    if |members| > 1 {
      PlainMembersAreAscii(members[1..]);
    }
    hide Json.Quote, Json.Dumps;
  }

  lemma ObjectIsAscii(members: seq<Json.Member>)
    requires members != [] && forall i :: 0 <= i < |members| ==> Plain(members[i])
    ensures Ascii(Json.Dumps(Json.Obj(members)))
  {
    PlainMembersAreAscii(members);
    assert Json.Dumps(Json.Obj(members)) == "{" + Json.WriteMembers(members);
    hide Json.Dumps, Json.WriteMembers;
  }

  lemma UuidIsAscii(s: string)
    requires Uuid(s)
    ensures Ascii(s)
  {
    forall i | 0 <= i < |s|
      ensures s[i] as int < 128
    {
      assert s[i] == '-' || LowerHex(s[i]);
    }
  }

  lemma HistoryIsAscii(at: nat, id: string)
    requires Ascii(id)
    ensures Ascii(Json.Dumps(HistoryJson(at, id)))
  {
    ObjectIsAscii(HistoryJson(at, id).members);
  }

  lemma InboxIsAscii(p: Position)
    requires Ascii(p.id)
    ensures Ascii(Json.Dumps(InboxJson(p)))
  {
    ObjectIsAscii(InboxJson(p).members);
  }

  lemma HistoryMembers(at: nat, id: string)
    ensures var members := HistoryJson(at, id).members;
            && Keys(members) == {"completed_at_ms", "id"}
            && Json.Get(members, "completed_at_ms") == Some(Json.Int(at))
            && Json.Get(members, "id") == Some(Json.Str(id))
  {
    var a, b := Json.Member("completed_at_ms", Json.Int(at)), Json.Member("id", Json.Str(id));
    Lookup2(a, b, "completed_at_ms");
    Lookup2(a, b, "id");
    hide Json.Get;
    assert a in HistoryJson(at, id).members && b in HistoryJson(at, id).members;
  }

  lemma InboxMembers(p: Position)
    ensures var members := InboxJson(p).members;
            && Keys(members) == {"v", "at_ms", "analyzed", "id"}
            && Json.Get(members, "at_ms") == Some(Json.Int(p.at)) && Json.Get(members, "id") == Some(Json.Str(p.id))
            && Json.Get(members, "analyzed") == Some(Json.Bool(p.analyzed))
            && Json.Get(members, "v") == Some(Json.Int(2))
  {
    var a, b := Json.Member("analyzed", Json.Bool(p.analyzed)), Json.Member("at_ms", Json.Int(p.at));
    var c, d := Json.Member("id", Json.Str(p.id)), Json.Member("v", Json.Int(2));
    Lookup4(a, b, c, d, "analyzed");
    Lookup4(a, b, c, d, "at_ms");
    Lookup4(a, b, c, d, "id");
    Lookup4(a, b, c, d, "v");
    hide Json.Get;
    var members := InboxJson(p).members;
    assert members[0] == a && members[1] == b && members[2] == c && members[3] == d;
  }

  /** A history cursor gives back its timestamp and identifier; read as an inbox cursor it is analyzed. */
  lemma HistoryComesBack(at: nat, id: string)
    requires Uuid(id)
    ensures Ascii(Json.Dumps(HistoryJson(at, id)))
    ensures DecodeHistory(Opaque(HistoryJson(at, id))) == Some((at, id))
    ensures DecodeInbox(Opaque(HistoryJson(at, id))) == Some(Position(at, true, id))
  {
    UuidIsAscii(id);
    HistoryIsAscii(at, id);
    OpaqueComesBack(HistoryJson(at, id));
    HistoryMembers(at, id);
    hide Json.Get, Keys, Payload, Opaque, Uuid, Json.Dumps;
  }

  /** An inbox cursor gives back timestamp, flag and identifier, and is no history cursor. */
  lemma InboxComesBack(p: Position)
    requires Uuid(p.id)
    ensures Ascii(Json.Dumps(InboxJson(p)))
    ensures DecodeInbox(Opaque(InboxJson(p))) == Some(p)
    ensures DecodeHistory(Opaque(InboxJson(p))) == None
  {
    hide Json.Get, Keys, Payload, Opaque, Uuid, Json.Dumps, Ascii;
    UuidIsAscii(p.id);
    InboxIsAscii(p);
    OpaqueComesBack(InboxJson(p));
    InboxMembers(p);
    assert "v" in {"v", "at_ms", "analyzed", "id"} && "v" !in {"completed_at_ms", "id"};
  }
}
