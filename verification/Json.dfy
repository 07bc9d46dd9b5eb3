// JSON text: `json.dumps` with compact separators, and the reading of what it writes.

module Json {
  import opened Text

  datatype Value =
    | Null
    | Bool(b: bool)
    | Int(n: int)
    | Str(s: string)
    | Arr(items: seq<Value>)
    | Obj(members: seq<Member>)

  datatype Member = Member(key: string, value: Value)

  // ---- writing ----------------------------------------------------------------

  function Digit(n: nat): char
    requires n < 10
  {
    ('0' as int + n) as char
  }

  function Digits(n: nat): string {
    if n < 10 then [Digit(n)] else Digits(n / 10) + [Digit(n % 10)]
  }

  function Hex(n: nat): char
    requires n < 16
  {
    if n < 10 then Digit(n) else ('a' as int + n - 10) as char
  }

  /** One character of a string literal: quote, backslash and control characters are escaped. */
  function WriteChar(c: char): string {
    if c == '"' then "\\\""
    else if c == '\\' then "\\\\"
    else if c == '\n' then "\\n"
    else if c == '\r' then "\\r"
    else if c == '\t' then "\\t"
    else if c as int == 8 then "\\b"
    else if c as int == 12 then "\\f"
    else if c < ' ' then "\\u00" + [Hex(c as int / 16), Hex(c as int % 16)]
    else [c]
  }

  function WriteChars(s: string): string {
    if s == "" then "" else WriteChar(s[0]) + WriteChars(s[1..])
  }

  function Quote(s: string): string {
    "\"" + WriteChars(s) + "\""
  }

  function Dumps(v: Value): string
    decreases v, 1
  {
    match v
    case Null => "null"
    case Bool(b) => if b then "true" else "false"
    case Int(n) => if n < 0 then "-" + Digits(-n) else Digits(n)
    case Str(s) => Quote(s)
    case Arr(items) => if items == [] then "[]" else "[" + WriteItems(items)
    case Obj(members) => if members == [] then "{}" else "{" + WriteMembers(members)
  }

  function WriteItems(items: seq<Value>): string
    requires items != []
    decreases items, 0
  {
    Dumps(items[0]) + (if |items| == 1 then "]" else "," + WriteItems(items[1..]))
  }

  function WriteMembers(members: seq<Member>): string
    requires members != []
    decreases members, 0
  {
    Quote(members[0].key)
    + (":" + (Dumps(members[0].value) + (if |members| == 1 then "}" else "," + WriteMembers(members[1..]))))
  }

  // ---- reading ----------------------------------------------------------------

  predicate IsDigit(c: char) {
    '0' <= c <= '9'
  }

  function HexValue(c: char): Option<nat> {
    if IsDigit(c) then Some(DigitValue(c))
    else if 'a' <= c <= 'f' then Some(c as int - 'a' as int + 10)
    else if 'A' <= c <= 'F' then Some(c as int - 'A' as int + 10)
    else None
  }

  function DigitValue(c: char): nat
    requires IsDigit(c)
  {
    c as int - '0' as int
  }

  function Number(digits: string): nat
    requires forall i :: 0 <= i < |digits| ==> IsDigit(digits[i])
  {
    if digits == "" then 0
    else 10 * Number(digits[..|digits| - 1]) + DigitValue(digits[|digits| - 1])
  }

  /** The character of a `\uXXXX` escape; surrogate halves are refused. */
  function Unicode(s: string): Option<char> {
    if |s| < 4 || exists i :: 0 <= i < 4 && HexValue(s[i]).None? then None
    else
      var n := 4096 * HexValue(s[0]).value + 256 * HexValue(s[1]).value + 16 * HexValue(s[2]).value
               + HexValue(s[3]).value;
      if n < 0xd800 || 0xe000 <= n < 0x10000 then Some(n as char) else None
  }

  /** What one escape stands for, and how many characters it takes. */
  function ReadEscape(s: string): (r: Option<(char, nat)>)
    ensures r.Some? ==> 2 <= r.value.1 <= |s|
  {
    if |s| < 2 then None
    else if s[1] == '"' || s[1] == '\\' || s[1] == '/' then Some((s[1], 2))
    else if s[1] == 'n' then Some(('\n', 2))
    else if s[1] == 'r' then Some(('\r', 2))
    else if s[1] == 't' then Some(('\t', 2))
    else if s[1] == 'b' then Some((8 as char, 2))
    else if s[1] == 'f' then Some((12 as char, 2))
    else if s[1] == 'u' && Unicode(s[2..]).Some? then Some((Unicode(s[2..]).value, 6))
    else None
  }

  /** The rest of a string literal whose opening quote has been read. */
  function ReadString(s: string): (r: Option<(string, string)>)
    ensures r.Some? ==> |r.value.1| < |s|
    decreases |s|
  {
    if s == "" || s[0] < ' ' then None
    else if s[0] == '"' then Some(("", s[1..]))
    else if s[0] == '\\' then
      match ReadEscape(s)
      case None => None
      case Some(e) =>
        match ReadString(s[e.1..])
        case None => None
        case Some(r) => Some(([e.0] + r.0, r.1))
    else
      match ReadString(s[1..])
      case None => None
      case Some(r) => Some(([s[0]] + r.0, r.1))
  }

  function ReadNumber(s: string): (r: Option<(nat, string)>)
    ensures r.Some? ==> |r.value.1| < |s|
  {
    var k := Run(IsDigit, s);
    if k == 0 || (k > 1 && s[0] == '0') || (k < |s| && s[k] in {'.', 'e', 'E'}) then None
    else Some((Number(s[..k]), s[k..]))
  }

  function ReadValue(s: string): (r: Option<(Value, string)>)
    ensures r.Some? ==> |r.value.1| < |s|
    decreases |s|, 0
  {
    if s == "" then None
    else if s[0] == '"' then
      match ReadString(s[1..])
      case None => None
      case Some(r) => Some((Str(r.0), r.1))
    else if s[0] == '[' then
      if StartsWith(s, "[]") then Some((Arr([]), s[2..]))
      else
        match ReadItems(s[1..])
        case None => None
        case Some(r) => Some((Arr(r.0), r.1))
    else if s[0] == '{' then
      if StartsWith(s, "{}") then Some((Obj([]), s[2..]))
      else
        match ReadMembers(s[1..])
        case None => None
        case Some(r) => Some((Obj(r.0), r.1))
    else if StartsWith(s, "null") then Some((Null, s[4..]))
    else if StartsWith(s, "true") then Some((Bool(true), s[4..]))
    else if StartsWith(s, "false") then Some((Bool(false), s[5..]))
    else if s[0] == '-' then
      match ReadNumber(s[1..])
      case None => None
      case Some(r) => Some((Int(-(r.0 as int)), r.1))
    else
      match ReadNumber(s)
      case None => None
      case Some(r) => Some((Int(r.0), r.1))
  }

  function ReadItems(s: string): (r: Option<(seq<Value>, string)>)
    ensures r.Some? ==> |r.value.1| < |s|
    decreases |s|, 1
  {
    match ReadValue(s)
    case None => None
    case Some(v) =>
      if StartsWith(v.1, "]") then Some(([v.0], v.1[1..]))
      else if StartsWith(v.1, ",") then
        match ReadItems(v.1[1..])
        case None => None
        case Some(r) => Some(([v.0] + r.0, r.1))
      else None
  }

  function ReadMembers(s: string): (r: Option<(seq<Member>, string)>)
    ensures r.Some? ==> |r.value.1| < |s|
    decreases |s|, 1
  {
    if !StartsWith(s, "\"") then None
    else
      match ReadString(s[1..])
      case None => None
      case Some(key) =>
        if !StartsWith(key.1, ":") then None
        else
          match ReadValue(key.1[1..])
          case None => None
          case Some(v) =>
            if StartsWith(v.1, "}") then Some(([Member(key.0, v.0)], v.1[1..]))
            else if StartsWith(v.1, ",") then
              match ReadMembers(v.1[1..])
              case None => None
              case Some(r) => Some(([Member(key.0, v.0)] + r.0, r.1))
            else None
  }

  function Loads(s: string): Option<Value> {
    match ReadValue(s)
    case None => None
    case Some(r) => if r.1 == "" then Some(r.0) else None
  }

  /** The value of a key; of several, the last, as in the dictionary `json.loads` builds. */
  function Get(members: seq<Member>, key: string): Option<Value> {
    if members == [] then None
    else
      var last := members[|members| - 1];
      if last.key == key then Some(last.value) else Get(members[..|members| - 1], key)
  }

  // ---- reading what was written -------------------------------------------------

  /** Text after which a number that was just written cannot go on. */
  predicate Ends(rest: string) {
    rest == "" || (!IsDigit(rest[0]) && rest[0] !in {'.', 'e', 'E'})
  }

  lemma {:induction false} NumberOfDigits(n: nat)
    ensures |Digits(n)| > 0 && forall i :: 0 <= i < |Digits(n)| ==> IsDigit(Digits(n)[i])
    ensures Number(Digits(n)) == n
    ensures Digits(n)[0] == '0' <==> n == 0
  {
    var d := Digits(n);
    if n >= 10 {
      NumberOfDigits(n / 10);
      assert d[..|d| - 1] == Digits(n / 10);
    } else {
      assert d[..0] == "";
    }
  }

  lemma ReadNumberOfDigits(n: nat, rest: string)
    requires Ends(rest)
    ensures ReadNumber(Digits(n) + rest) == Some((n, rest))
  {
    var d := Digits(n);
    NumberOfDigits(n);
    RunConcat(d, rest);
    assert (d + rest)[..|d|] == d;
    assert (d + rest)[|d|..] == rest;
  }

  lemma {:induction false} RunConcat(d: string, rest: string)
    requires forall i :: 0 <= i < |d| ==> IsDigit(d[i])
    requires rest == "" || !IsDigit(rest[0])
    ensures Run(IsDigit, d + rest) == |d|
  {
    if d != "" {
      assert (d + rest)[1..] == d[1..] + rest;
      RunConcat(d[1..], rest);
    } else {
      assert d + rest == rest;
    }
  }

  lemma HexOfControl(n: nat)
    requires n < 32
    ensures Unicode("00" + [Hex(n / 16), Hex(n % 16)]) == Some(n as char)
  {
    assert HexValue(Hex(n / 16)) == Some(n / 16) && HexValue(Hex(n % 16)) == Some(n % 16);
  }

  /** One written character reads back as itself. */
  lemma ReadOneChar(c: char, rest: string)
    requires ReadString(rest).Some?
    ensures ReadString(WriteChar(c) + rest) == Some(([c] + ReadString(rest).value.0, ReadString(rest).value.1))
  {
    var w := WriteChar(c);
    var s := w + rest;
    assert s[|w|..] == rest;
    if c < ' ' && |w| == 6 {
      assert s[2..][..4] == "00" + [Hex(c as int / 16), Hex(c as int % 16)];
      HexOfControl(c as int);
      assert Unicode(s[2..]) == Unicode(s[2..][..4]);
      assert ReadEscape(s) == Some((c, 6));
    } else if |w| == 2 {
      assert s[0] == '\\' && s[1] == w[1];
      assert ReadEscape(s) == Some((c, 2));
    } else {
      assert w == [c] && s[0] == c;
    }
  }

  lemma {:induction false} ReadStringOfWrite(t: string, rest: string)
    ensures ReadString(WriteChars(t) + ("\"" + rest)) == Some((t, rest))
  {
    hide ReadEscape, WriteChar;
    var tail := "\"" + rest;
    if t == "" {
      assert WriteChars(t) + tail == tail;
      assert tail[1..] == rest;
    } else {
      ReadStringOfWrite(t[1..], rest);
      ReadOneChar(t[0], WriteChars(t[1..]) + tail);
      assert WriteChars(t) + tail == WriteChar(t[0]) + (WriteChars(t[1..]) + tail);
      assert [t[0]] + t[1..] == t;
    }
  }

  lemma QuoteParts(t: string, rest: string)
    ensures Quote(t) + rest == "\"" + (WriteChars(t) + ("\"" + rest))
    ensures (Quote(t) + rest)[0] == '"' && (Quote(t) + rest)[1..] == WriteChars(t) + ("\"" + rest)
  {
  }

  /** The first character of a written value tells its kind. */
  lemma FirstChar(v: Value)
    ensures Dumps(v) != ""
    ensures var c := Dumps(v)[0];
            match v
            case Null => c == 'n'
            case Bool(b) => c == if b then 't' else 'f'
            case Int(n) => if n < 0 then c == '-' else IsDigit(c)
            case Str(_) => c == '"'
            case Arr(_) => c == '['
            case Obj(_) => c == '{'
  {
    if v.Int? {
      NumberOfDigits(if v.n < 0 then -v.n else v.n);
    }
  }

  lemma ReadScalar(v: Value, rest: string)
    requires v.Null? || v.Bool? || v.Int? || v.Str?
    requires Ends(rest)
    ensures ReadValue(Dumps(v) + rest) == Some((v, rest))
  {
    hide ReadString, ReadNumber, ReadItems, ReadMembers, WriteChars, Digits;
    FirstChar(v);
    var s := Dumps(v) + rest;
    assert s[0] == Dumps(v)[0] && s[|Dumps(v)|..] == rest;
    match v
    case Null => assert StartsWith(s, "null");
    case Bool(b) => assert StartsWith(s, if b then "true" else "false");
    case Str(t) => QuoteParts(t, rest); ReadStringOfWrite(t, rest);
    case Int(n) =>
      if n < 0 {
        assert s[1..] == Digits(-n) + rest;
        ReadNumberOfDigits(-n, rest);
      } else {
        ReadNumberOfDigits(n, rest);
      }
  }

  lemma ReadEmpty(v: Value, rest: string)
    requires v == Arr([]) || v == Obj([])
    ensures ReadValue(Dumps(v) + rest) == Some((v, rest))
  {
    var s := Dumps(v) + rest;
    assert s[2..] == rest;
    assert StartsWith(s, if v.Arr? then "[]" else "{}");
  }

  lemma ReadArr(items: seq<Value>, rest: string)
    requires items != [] && ReadItems(WriteItems(items) + rest) == Some((items, rest))
    ensures ReadValue(Dumps(Arr(items)) + rest) == Some((Arr(items), rest))
  {
    var s := Dumps(Arr(items)) + rest;
    FirstChar(items[0]);
    assert s[1..] == WriteItems(items) + rest;
    hide Dumps, ReadItems;
    assert s[1] == Dumps(items[0])[0] != ']';
    assert s[0] == '[';
  }

  lemma MembersStart(members: seq<Member>)
    requires members != []
    ensures WriteMembers(members) != "" && WriteMembers(members)[0] == '"'
  {
    hide Dumps, WriteChars;
  }

  lemma ReadBraces(s: string, members: seq<Member>, rest: string)
    requires |s| > 1 && s[0] == '{' && s[1] == '"' && ReadMembers(s[1..]) == Some((members, rest))
    ensures ReadValue(s) == Some((Obj(members), rest))
  {
    hide ReadMembers, ReadString, ReadItems, ReadNumber;
  }

  lemma DumpsObj(members: seq<Member>)
    requires members != []
    ensures Dumps(Obj(members)) == "{" + WriteMembers(members)
  {
  }

  lemma ReadObj(members: seq<Member>, rest: string)
    requires members != [] && ReadMembers(WriteMembers(members) + rest) == Some((members, rest))
    ensures ReadValue(Dumps(Obj(members)) + rest) == Some((Obj(members), rest))
  {
    hide *;
    var written := WriteMembers(members);
    DumpsObj(members);
    MembersStart(members);
    var s := ("{" + written) + rest;
    assert s[1..] == written + rest;
    ReadBraces(s, members, rest);
  }

  /** Whatever is written reads back as the same value, and reading stops where writing did. */
  lemma {:induction false} ReadOfDumps(v: Value, rest: string)
    requires Ends(rest)
    ensures ReadValue(Dumps(v) + rest) == Some((v, rest))
    decreases v, 1
  {
    hide ReadValue, Dumps, ReadItems, ReadMembers;
    match v
    case Arr(items) =>
      if items == [] {
        ReadEmpty(v, rest);
      } else {
        ReadItemsOfWrite(items, rest);
        ReadArr(items, rest);
      }
    case Obj(members) =>
      if members == [] {
        ReadEmpty(v, rest);
      } else {
        ReadMembersOfWrite(members, rest);
        ReadObj(members, rest);
      }
    case _ => ReadScalar(v, rest);
  }

  lemma {:induction false} ReadItemsOfWrite(items: seq<Value>, rest: string)
    requires items != []
    ensures ReadItems(WriteItems(items) + rest) == Some((items, rest))
    decreases items, 0
  {
    hide ReadValue, Dumps;
    var more := if |items| == 1 then "]" else "," + WriteItems(items[1..]);
    ReadOfDumps(items[0], more + rest);
    assert WriteItems(items) + rest == Dumps(items[0]) + (more + rest);
    assert (more + rest)[1..] == (if |items| == 1 then rest else WriteItems(items[1..]) + rest);
    if |items| == 1 {
      assert StartsWith(more + rest, "]");
      assert items == [items[0]];
    } else {
      assert StartsWith(more + rest, ",");
      ReadItemsOfWrite(items[1..], rest);
      assert items == [items[0]] + items[1..];
    }
  }

  lemma {:induction false} ReadMembersOfWrite(members: seq<Member>, rest: string)
    requires members != []
    ensures ReadMembers(WriteMembers(members) + rest) == Some((members, rest))
    decreases members, 0
  {
    hide ReadValue, Dumps, ReadString, WriteChars;
    var more := if |members| == 1 then "}" else "," + WriteMembers(members[1..]);
    var Member(key, value) := members[0];
    var afterKey := ":" + (Dumps(value) + (more + rest));
    var s := WriteMembers(members) + rest;
    assert s == Quote(key) + afterKey;
    QuoteParts(key, afterKey);
    ReadStringOfWrite(key, afterKey);
    ReadOfDumps(value, more + rest);
    assert afterKey[1..] == Dumps(value) + (more + rest);
    assert (more + rest)[1..] == (if |members| == 1 then rest else WriteMembers(members[1..]) + rest);
    if |members| == 1 {
      assert StartsWith(more + rest, "}");
      assert members == [Member(key, value)];
    } else {
      assert StartsWith(more + rest, ",");
      ReadMembersOfWrite(members[1..], rest);
      assert members == [Member(key, value)] + members[1..];
    }
  }

  lemma LoadsOfDumps(v: Value)
    ensures Loads(Dumps(v)) == Some(v)
  {
    ReadOfDumps(v, "");
    assert Dumps(v) + "" == Dumps(v);
  }

  /** Different values are written differently. */
  lemma DumpsIsInjective(v: Value, w: Value)
    requires Dumps(v) == Dumps(w)
    ensures v == w
  {
    LoadsOfDumps(v);
    LoadsOfDumps(w);
  }
}
