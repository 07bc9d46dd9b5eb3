// Base 64 (RFC 4648): section 4 with padding, as `btoa` and `atob`, and section 5 without.

module Base64 {
  import opened Text

  type Byte = n: nat | n < 256
  type Sextet = n: nat | n < 64

  // ---- octets and sextets ---------------------------------------------------------------

  function First(a: Byte): Sextet {
    a / 4
  }

  function Second(a: Byte, b: Byte): Sextet {
    Bounds(a, b);
    a % 4 * 16 + b / 16
  }

  function Third(b: Byte, c: Byte): Sextet {
    Bounds(b, c);
    b % 16 * 4 + c / 64
  }

  function Fourth(c: Byte): Sextet {
    c % 64
  }

  lemma Bounds(a: Byte, b: Byte)
    ensures 0 <= a % 4 <= 3 && 0 <= b / 16 <= 15 && 0 <= a % 16 <= 15 && 0 <= b / 64 <= 3
  {
  }

  function Octet1(p: Sextet, q: Sextet): Byte {
    p * 4 + q / 16
  }

  function Octet2(q: Sextet, r: Sextet): Byte {
    q % 16 * 16 + r / 4
  }

  function Octet3(r: Sextet, t: Sextet): Byte {
    r % 4 * 64 + t
  }

  lemma OctetsBack(a: Byte, b: Byte, c: Byte)
    ensures Octet1(First(a), Second(a, b)) == a
    ensures Octet2(Second(a, b), Third(b, c)) == b
    ensures Octet3(Third(b, c), Fourth(c)) == c
  {
    Bounds(a, b);
    Bounds(b, c);
    assert Second(a, b) / 16 == a % 4 && Second(a, b) % 16 == b / 16;
    assert Third(b, c) / 4 == b % 16 && Third(b, c) % 4 == c / 64;
  }

  /** Three octets make four sextets; one or two left over make two or three. */
  function Sextets(b: seq<Byte>): (s: seq<Sextet>)
    ensures |s| == (|b| * 4 + 2) / 3
  {
    if |b| == 0 then []
    else if |b| == 1 then [First(b[0]), Second(b[0], 0)]
    else if |b| == 2 then [First(b[0]), Second(b[0], b[1]), Third(b[1], 0)]
    else [First(b[0]), Second(b[0], b[1]), Third(b[1], b[2]), Fourth(b[2])] + Sextets(b[3..])
  }

  /** `None` when a single sextet is left over; surplus low bits are dropped. */
  function Octets(s: seq<Sextet>): Option<seq<Byte>> {
    if |s| == 0 then Some([])
    else if |s| == 1 then None
    else if |s| == 2 then Some([Octet1(s[0], s[1])])
    else if |s| == 3 then Some([Octet1(s[0], s[1]), Octet2(s[1], s[2])])
    else
      match Octets(s[4..])
      case None => None
      case Some(rest) => Some([Octet1(s[0], s[1]), Octet2(s[1], s[2]), Octet3(s[2], s[3])] + rest)
  }

  lemma {:induction false} OctetsOfSextets(b: seq<Byte>)
    ensures Octets(Sextets(b)) == Some(b)
  {
    hide First, Second, Third, Fourth, Octet1, Octet2, Octet3;
    if |b| == 1 {
      OctetsBack(b[0], 0, 0);
      assert b == [b[0]];
    } else if |b| == 2 {
      OctetsBack(b[0], b[1], 0);
      assert b == [b[0], b[1]];
    } else if |b| >= 3 {
      OctetsBack(b[0], b[1], b[2]);
      OctetsOfSextets(b[3..]);
      var s := Sextets(b);
      assert s[4..] == Sextets(b[3..]);
      assert b == [b[0], b[1], b[2]] + b[3..];
    }
  }

  // ---- the two alphabets --------------------------------------------------------------------

  datatype Alphabet = Standard | UrlSafe

  function Letter(a: Alphabet, n: Sextet): char {
    if n < 26 then ('A' as int + n) as char
    else if n < 52 then ('a' as int + n - 26) as char
    else if n < 62 then ('0' as int + n - 52) as char
    else if n == 62 then (if a.Standard? then '+' else '-')
    else (if a.Standard? then '/' else '_')
  }

  function ValueOf(a: Alphabet, c: char): Option<Sextet> {
    if 'A' <= c <= 'Z' then Some(c as int - 'A' as int)
    else if 'a' <= c <= 'z' then Some(c as int - 'a' as int + 26)
    else if '0' <= c <= '9' then Some(c as int - '0' as int + 52)
    else if c == (if a.Standard? then '+' else '-') then Some(62)
    else if c == (if a.Standard? then '/' else '_') then Some(63)
    else None
  }

  lemma ValueOfLetter(a: Alphabet, n: Sextet)
    ensures ValueOf(a, Letter(a, n)) == Some(n) && Letter(a, n) != '='
  {
  }

  function Letters(a: Alphabet, s: seq<Sextet>): (text: string)
    ensures |text| == |s|
  {
    if s == [] then "" else [Letter(a, s[0])] + Letters(a, s[1..])
  }

  function Values(a: Alphabet, text: string): Option<seq<Sextet>> {
    if text == "" then Some([])
    else
      var first, rest := ValueOf(a, text[0]), Values(a, text[1..]);
      if first.Some? && rest.Some? then Some([first.value] + rest.value) else None
  }

  lemma {:induction false} ValuesOfLetters(a: Alphabet, s: seq<Sextet>)
    ensures Values(a, Letters(a, s)) == Some(s) && '=' !in Letters(a, s)
  {
    if s != [] {
      ValueOfLetter(a, s[0]);
      ValuesOfLetters(a, s[1..]);
      hide Letter, ValueOf;
      assert Letters(a, s)[1..] == Letters(a, s[1..]);
      assert s == [s[0]] + s[1..];
    }
  }

  // ---- padded text ------------------------------------------------------------------------------

  function Repeat(c: char, n: nat): string {
    if n == 0 then "" else [c] + Repeat(c, n - 1)
  }

  /** How many `=` bring a length to a multiple of four. */
  function PaddingFor(length: nat): nat {
    (4 - length % 4) % 4
  }

  function Encode(a: Alphabet, b: seq<Byte>): string {
    var text := Letters(a, Sextets(b));
    text + Repeat('=', PaddingFor(|text|))
  }

  /** `rstrip("=")`. */
  function Stripped(text: string): string {
    if text != "" && text[|text| - 1] == '=' then Stripped(text[..|text| - 1]) else text
  }

  /** Padded text: length a multiple of four, at most two `=`, and only at the end. */
  function Decode(a: Alphabet, text: string): Option<seq<Byte>> {
    var body := Stripped(text);
    if |text| % 4 != 0 || |text| - |body| > 2 then None
    else
      match Values(a, body)
      case None => None
      case Some(s) => Octets(s)
  }

  lemma {:induction false} StrippedOfPadded(text: string, n: nat)
    requires '=' !in text
    ensures Stripped(text + Repeat('=', n)) == text && |Repeat('=', n)| == n
  {
    if n == 0 {
      assert text + Repeat('=', 0) == text;
    } else {
      RepeatEnds(n);
      var padded := text + Repeat('=', n);
      assert padded[..|padded| - 1] == text + Repeat('=', n - 1);
      StrippedOfPadded(text, n - 1);
    }
  }

  lemma {:induction false} RepeatEnds(n: nat)
    requires n > 0
    ensures Repeat('=', n) == Repeat('=', n - 1) + ['='] && |Repeat('=', n)| == n
  {
    if n > 1 {
      RepeatEnds(n - 1);
    }
  }

  lemma {:induction false} NoLoneSextet(b: seq<Byte>)
    ensures |Sextets(b)| % 4 != 1
  {
    hide First, Second, Third, Fourth;
    if |b| >= 3 {
      NoLoneSextet(b[3..]);
    }
  }

  lemma PaddingFits(length: nat)
    requires length % 4 != 1
    ensures PaddingFor(length) <= 2 && (length + PaddingFor(length)) % 4 == 0
  {
  }

  /** What is encoded is read back, in either alphabet. */
  lemma DecodeOfEncode(a: Alphabet, b: seq<Byte>)
    ensures Decode(a, Encode(a, b)) == Some(b) && |Encode(a, b)| % 4 == 0
  {
    NoLoneSextet(b);
    hide Values, Letters, Octets, Sextets, Stripped, Repeat, PaddingFor;
    var s := Sextets(b);
    PaddingFits(|s|);
    ValuesOfLetters(a, s);
    OctetsOfSextets(b);
    StrippedOfPadded(Letters(a, s), PaddingFor(|s|));
  }

  /** Padding that was stripped is restored from the length alone. */
  lemma PaddingComesBack(a: Alphabet, b: seq<Byte>)
    ensures var bare := Stripped(Encode(a, b)); bare + Repeat('=', PaddingFor(|bare|)) == Encode(a, b)
    ensures Stripped(Encode(a, b)) == Letters(a, Sextets(b))
  {
    ValuesOfLetters(a, Sextets(b));
    StrippedOfPadded(Letters(a, Sextets(b)), PaddingFor(|Sextets(b)|));
  }

  // ---- the forgiving reader of a browser -----------------------------------------------------------

  predicate IsBlank(c: char) {
    c == '\t' || c == '\n' || c as int == 12 || c == '\r' || c == ' '
  }

  function WithoutBlanks(text: string): (bare: string)
    ensures forall i :: 0 <= i < |bare| ==> !IsBlank(bare[i])
  {
    if text == "" then "" else (if IsBlank(text[0]) then "" else [text[0]]) + WithoutBlanks(text[1..])
  }

  /** Up to two `=` at the end are dropped, and only from whole groups of four. */
  function WithoutPadding(bare: string): string {
    var n := |bare|;
    if n == 0 || n % 4 != 0 || bare[n - 1] != '=' then bare
    else if bare[n - 2] == '=' then bare[..n - 2]
    else bare[..n - 1]
  }

  /** `atob`: white space and missing padding are forgiven. */
  function Atob(text: string): Option<seq<Byte>> {
    match Values(Standard, WithoutPadding(WithoutBlanks(text)))
    case None => None
    case Some(s) => Octets(s)
  }

  /** `bare` is letters, and then `n` padding signs that fill the last group of four. */
  predicate PaddedBy(bare: string, n: nat) {
    && n <= |bare| && (n > 0 ==> |bare| % 4 == 0)
    && (forall i :: 0 <= i < |bare| - n ==> ValueOf(Standard, bare[i]).Some?)
    && (forall i :: |bare| - n <= i < |bare| ==> bare[i] == '=')
  }

  /**
   * The texts a browser reads: whatever the white space, no group of a single letter, and at most two padding signs.
   */
  ghost predicate Readable(text: string) {
    var bare := WithoutBlanks(text);
    exists n: nat :: n <= 2 && PaddedBy(bare, n) && (|bare| - n) % 4 != 1
  }

  lemma {:induction false} ValuesExist(a: Alphabet, text: string)
    ensures Values(a, text).Some? <==> forall i :: 0 <= i < |text| ==> ValueOf(a, text[i]).Some?
    ensures Values(a, text).Some? ==> |Values(a, text).value| == |text|
  {
    hide ValueOf;
    if text != "" {
      ValuesExist(a, text[1..]);
      assert text == [text[0]] + text[1..];
      assert forall i :: 0 < i < |text| ==> text[i] == text[1..][i - 1];
    }
  }

  lemma {:induction false} OctetsExist(s: seq<Sextet>)
    ensures Octets(s).Some? <==> |s| % 4 != 1
    ensures Octets(s).Some? ==> |Octets(s).value| == |s| * 3 / 4
  {
    hide Octet1, Octet2, Octet3;
    if |s| >= 4 {
      OctetsExist(s[4..]);
      assert |s| == 4 + |s[4..]|;
    }
  }

  /** How many padding signs a bare text ends with, as far as they are dropped. */
  lemma PaddingIs(bare: string, n: nat)
    requires n <= 2 && PaddedBy(bare, n)
    ensures WithoutPadding(bare) == bare[..|bare| - n]
  {
    assert ValueOf(Standard, '=').None?;
  }

  lemma LettersLeft(bare: string)
    requires Values(Standard, WithoutPadding(bare)).Some?
    ensures |WithoutPadding(bare)| <= |bare| <= |WithoutPadding(bare)| + 2
    ensures PaddedBy(bare, |bare| - |WithoutPadding(bare)|)
  {
    var body := WithoutPadding(bare);
    ValuesExist(Standard, body);
    hide Values, ValueOf;
    assert forall i :: 0 <= i < |body| ==> bare[i] == body[i];
  }

  lemma ReadWhen(bare: string, n: nat)
    requires n <= 2 && PaddedBy(bare, n)
    ensures Values(Standard, WithoutPadding(bare)).Some? && |WithoutPadding(bare)| == |bare| - n
  {
    PaddingIs(bare, n);
    ValuesExist(Standard, WithoutPadding(bare));
    hide Values, ValueOf, WithoutPadding;
  }

  /** A text is read exactly when it is readable, and then gives six bits a letter. */
  lemma AtobIff(text: string)
    ensures Atob(text).Some? <==> Readable(text)
    ensures forall n: nat :: n <= 2 && PaddedBy(WithoutBlanks(text), n) && Atob(text).Some? ==>
              |Atob(text).value| == (|WithoutBlanks(text)| - n) * 3 / 4
  {
    var bare := WithoutBlanks(text);
    var values := Values(Standard, WithoutPadding(bare));
    if values.Some? {
      LettersLeft(bare);
      ValuesExist(Standard, WithoutPadding(bare));
      OctetsExist(values.value);
    }
    hide Values, WithoutPadding, WithoutBlanks, Octets, PaddedBy;
    forall n: nat | n <= 2 && PaddedBy(bare, n)
      ensures values.Some? && |WithoutPadding(bare)| == |bare| - n
    {
      ReadWhen(bare, n);
    }
  }

  // ---- what is encoded is read ---------------------------------------------------------------------

  lemma {:induction false} LettersAreLetters(a: Alphabet, s: seq<Sextet>)
    ensures forall i :: 0 <= i < |s| ==> ValueOf(a, Letters(a, s)[i]).Some?
  {
    if s != [] {
      ValueOfLetter(a, s[0]);
      LettersAreLetters(a, s[1..]);
      hide Letter, ValueOf;
    }
  }

  lemma {:induction false} RepeatIs(c: char, n: nat)
    ensures |Repeat(c, n)| == n && forall i :: 0 <= i < n ==> Repeat(c, n)[i] == c
  {
    if n > 0 {
      RepeatIs(c, n - 1);
    }
  }

  /** The padded text of some bytes, and the same with its padding left away. */
  lemma EncodedIsPadded(b: seq<Byte>)
    ensures PaddedBy(Encode(Standard, b), PaddingFor(|Sextets(b)|)) && PaddingFor(|Sextets(b)|) <= 2
    ensures PaddedBy(Stripped(Encode(Standard, b)), 0)
    ensures WithoutPadding(Encode(Standard, b)) == Letters(Standard, Sextets(b))
            == WithoutPadding(Stripped(Encode(Standard, b)))
  {
    LettersAreLetters(Standard, Sextets(b));
    NoLoneSextet(b);
    PaddingComesBack(Standard, b);
    EncodeIs(Standard, b);
    PadIsPadding(Letters(Standard, Sextets(b)));
    hide *;
  }

  lemma PadIsPadding(text: string)
    requires |text| % 4 != 1 && forall i :: 0 <= i < |text| ==> ValueOf(Standard, text[i]).Some?
    ensures var n := PaddingFor(|text|);
            && n <= 2 && PaddedBy(text + Repeat('=', n), n) && PaddedBy(text, 0)
            && WithoutPadding(text + Repeat('=', n)) == text == WithoutPadding(text)
  {
    var n := PaddingFor(|text|);
    PaddingFits(|text|);
    RepeatIs('=', n);
    hide Repeat, WithoutPadding, ValueOf;
    var padded := text + Repeat('=', n);
    PaddingIs(padded, n);
    PaddingIs(text, 0);
    assert padded[..|padded| - n] == text && text[..|text|] == text;
  }

  /**
   * Whatever white space is put into it, and with its padding or without, the text of any bytes is read as those bytes.
   */
  lemma AtobOfEncode(text: string, b: seq<Byte>)
    requires WithoutBlanks(text) == Encode(Standard, b) || WithoutBlanks(text) == Stripped(Encode(Standard, b))
    ensures Atob(text) == Some(b)
  {
    EncodedIsPadded(b);
    ValuesOfLetters(Standard, Sextets(b));
    OctetsOfSextets(b);
    hide Letters, Sextets, Stripped, WithoutPadding, WithoutBlanks, Encode, Values, Octets;
  }

  lemma {:induction false} NothingIsBlank(text: string)
    requires forall i :: 0 <= i < |text| ==> !IsBlank(text[i])
    ensures WithoutBlanks(text) == text
  {
    if text != "" {
      NothingIsBlank(text[1..]);
      assert text == [text[0]] + text[1..];
    }
  }

  lemma EncodedHasNoBlanks(b: seq<Byte>)
    ensures WithoutBlanks(Encode(Standard, b)) == Encode(Standard, b)
  {
    EncodedIsPadded(b);
    var padded := Encode(Standard, b);
    forall i | 0 <= i < |padded|
      ensures !IsBlank(padded[i])
    {
      assert ValueOf(Standard, padded[i]).Some? || padded[i] == '=';
    }
    NothingIsBlank(padded);
  }

  // ---- the text by the definition of RFC 4648 ------------------------------------------------------

  const UPPER := "ABCDEFGHIJKLMNOPQRSTUVWXYZ"
  const LOWER := "abcdefghijklmnopqrstuvwxyz"
  const DIGITS := "0123456789"

  /** Tables 1 and 2. */
  function AlphabetOf(a: Alphabet): (letters: string)
    ensures |letters| == 64
  {
    UPPER + (LOWER + (DIGITS + (if a.Standard? then "+/" else "-_")))
  }

  lemma LetterIs(a: Alphabet, n: Sextet)
    ensures Letter(a, n) == AlphabetOf(a)[n]
  {
    if n < 26 {
      assert UPPER[n] == ('A' as int + n) as char;
    } else if n < 52 {
      assert LOWER[n - 26] == ('a' as int + (n - 26)) as char;
    } else if n < 62 {
      assert DIGITS[n - 52] == ('0' as int + (n - 52)) as char;
    }
  }

  function Bits(a: nat, b: nat, c: nat): nat {
    65536 * a + 256 * b + c
  }

  /**
   * Four letters for one group of 24 bits: six bits each, from the high end; an octet that is missing counts as zero,
   * and gives `=` where it would have had a letter to itself.
   */
  function GroupText(a: Alphabet, group: seq<Byte>): string
    requires 1 <= |group| <= 3
  {
    var x := Bits(group[0], if |group| > 1 then group[1] else 0, if |group| > 2 then group[2] else 0);
    var letters := AlphabetOf(a);
    [letters[x / 262144 % 64], letters[x / 4096 % 64], if |group| > 1 then letters[x / 64 % 64] else '=',
     if |group| > 2 then letters[x % 64] else '=']
  }

  lemma SextetsAreBits(a: Byte, b: Byte, c: Byte)
    ensures var x := Bits(a, b, c);
            && First(a) == x / 262144 % 64 && Second(a, b) == x / 4096 % 64 && Third(b, c) == x / 64 % 64
            && Fourth(c) == x % 64
  {
    Bounds(a, b);
    Bounds(b, c);
    assert a == 4 * (a / 4) + a % 4 && b == 16 * (b / 16) + b % 16 && c == 64 * (c / 64) + c % 64;
    var p: int, q: int, r: int, t: int := First(a), Second(a, b), Third(b, c), Fourth(c);
    var x := Bits(a, b, c);
    assert x == 262144 * p + 4096 * q + 64 * r + t;
    hide First, Second, Third, Fourth, Bits;
    HighBits(x, p, q, r, t);
    LowBits(x, p, q, r, t);
  }

  lemma HighBits(x: int, p: int, q: int, r: int, t: int)
    requires x == 262144 * p + 4096 * q + 64 * r + t && 0 <= p < 64 && 0 <= q < 64 && 0 <= r < 64 && 0 <= t < 64
    ensures x / 262144 % 64 == p && x / 4096 % 64 == q
  {
    assert x / 262144 == p;
    assert x / 4096 == 64 * p + q;
  }

  lemma LowBits(x: int, p: int, q: int, r: int, t: int)
    requires x == 262144 * p + 4096 * q + 64 * r + t && 0 <= p < 64 && 0 <= q < 64 && 0 <= r < 64 && 0 <= t < 64
    ensures x / 64 % 64 == r && x % 64 == t
  {
    assert x / 64 == 4096 * p + 64 * q + r;
  }

  lemma LettersAreBits(a: Alphabet, b: Byte, c: Byte, d: Byte)
    ensures var x, letters := Bits(b, c, d), AlphabetOf(a);
            && Letter(a, First(b)) == letters[x / 262144 % 64] && Letter(a, Second(b, c)) == letters[x / 4096 % 64]
            && Letter(a, Third(c, d)) == letters[x / 64 % 64] && Letter(a, Fourth(d)) == letters[x % 64]
  {
    SextetsAreBits(b, c, d);
    hide First, Second, Third, Fourth, AlphabetOf, Letter, Bits;
    LetterIs(a, First(b));
    LetterIs(a, Second(b, c));
    LetterIs(a, Third(c, d));
    LetterIs(a, Fourth(d));
  }

  /** The text of some bytes is the text of their groups of three, and the octets left over make the last group. */
  lemma EncodedByGroups(a: Alphabet, b: seq<Byte>)
    ensures b == [] ==> Encode(a, b) == ""
    ensures 1 <= |b| <= 3 ==> Encode(a, b) == GroupText(a, b)
    ensures |b| > 3 ==> Encode(a, b) == GroupText(a, b[..3]) + Encode(a, b[3..])
  {
    if b == [] {
    } else if |b| <= 3 {
      LastGroup(a, b);
    } else {
      FirstGroup(a, b);
    }
  }

  lemma EncodeIs(a: Alphabet, b: seq<Byte>)
    ensures Encode(a, b) == Letters(a, Sextets(b)) + Repeat('=', PaddingFor(|Sextets(b)|))
  {
    hide Letters, Sextets, Repeat, PaddingFor;
  }

  lemma FirstGroup(a: Alphabet, b: seq<Byte>)
    requires |b| >= 3
    ensures Encode(a, b) == GroupText(a, b[..3]) + Encode(a, b[3..])
  {
    hide *;
    var s, head := Sextets(b), GroupText(a, b[..3]);
    GroupTextIs(a, b[..3]);
    LettersOfGroup(a, s);
    SextetsOfGroup(b);
    SamePadding(|s[4..]|);
    EncodeIs(a, b);
    EncodeIs(a, b[3..]);
    var rest, pad := Letters(a, s[4..]), Repeat('=', PaddingFor(|s|));
    assert Letters(a, s) == head + rest;
    assert (head + rest) + pad == head + (rest + pad);
  }

  lemma SextetsOfGroup(b: seq<Byte>)
    requires |b| >= 3
    ensures var s := Sextets(b);
            && |s| >= 4 && s[4..] == Sextets(b[3..]) && |s| == 4 + |s[4..]|
            && s[0] == First(b[0]) && s[1] == Second(b[0], b[1]) && s[2] == Third(b[1], b[2]) && s[3] == Fourth(b[2])
  {
    hide First, Second, Third, Fourth;
  }

  lemma GroupTextIs(a: Alphabet, group: seq<Byte>)
    requires 1 <= |group| <= 3
    ensures var c, d := if |group| > 1 then group[1] else 0, if |group| > 2 then group[2] else 0;
            GroupText(a, group)
            == [Letter(a, First(group[0])), Letter(a, Second(group[0], c)),
                if |group| > 1 then Letter(a, Third(c, d)) else '=', if |group| > 2 then Letter(a, Fourth(d)) else '=']
  {
    LettersAreBits(a, group[0], if |group| > 1 then group[1] else 0, if |group| > 2 then group[2] else 0);
    hide First, Second, Third, Fourth, AlphabetOf, Letter, Bits;
  }

  lemma SamePadding(n: nat)
    ensures PaddingFor(4 + n) == PaddingFor(n)
  {
  }

  lemma LastGroup(a: Alphabet, b: seq<Byte>)
    requires 1 <= |b| <= 3
    ensures Encode(a, b) == GroupText(a, b)
  {
    hide *;
    var s := Sextets(b);
    GroupTextIs(a, b);
    LettersOfGroup(a, s);
    LastSextets(b);
    EncodeIs(a, b);
    Padding();
    var text := Letters(a, s);
    assert |b| == 3 ==> text + "" == text;
  }

  lemma LastSextets(b: seq<Byte>)
    requires 1 <= |b| <= 3
    ensures var s := Sextets(b);
            && |s| == |b| + 1 && s[0] == First(b[0])
            && s[1] == Second(b[0], if |b| > 1 then b[1] else 0)
            && (|b| > 1 ==> s[2] == Third(b[1], if |b| > 2 then b[2] else 0))
            && (|b| > 2 ==> s[3] == Fourth(b[2]))
  {
    hide First, Second, Third, Fourth;
    assert |b| == 3 ==> Sextets(b[3..]) == [];
  }

  lemma Padding()
    ensures Repeat('=', PaddingFor(2)) == "==" && Repeat('=', PaddingFor(3)) == "=" && Repeat('=', PaddingFor(4)) == ""
  {
    assert Repeat('=', 1) == "=";
  }

  lemma LettersFrom(a: Alphabet, s: seq<Sextet>, i: nat)
    requires i < |s|
    ensures Letters(a, s[i..]) == [Letter(a, s[i])] + Letters(a, s[i + 1..])
  {
    hide Letter;
    assert s[i..][1..] == s[i + 1..];
  }

  lemma Four(p: char, q: char, r: char, t: char, rest: string)
    ensures [p] + ([q] + ([r] + ([t] + rest))) == [p, q, r, t] + rest
    ensures [p] + ([q] + ([r] + "")) == [p, q, r] && [p] + ([q] + "") == [p, q]
  {
  }

  lemma LettersOfGroup(a: Alphabet, s: seq<Sextet>)
    ensures |s| == 2 ==> Letters(a, s) == [Letter(a, s[0]), Letter(a, s[1])]
    ensures |s| == 3 ==> Letters(a, s) == [Letter(a, s[0]), Letter(a, s[1]), Letter(a, s[2])]
    ensures |s| >= 4 ==>
              Letters(a, s) == [Letter(a, s[0]), Letter(a, s[1]), Letter(a, s[2]), Letter(a, s[3])] + Letters(a, s[4..])
  {
    assert s[0..] == s && s[|s|..] == [] && Letters(a, []) == "";
    hide *;
    if |s| >= 2 {
      LettersFrom(a, s, 0);
      LettersFrom(a, s, 1);
      var r, t := if |s| > 2 then s[2] else 0, if |s| > 3 then s[3] else 0;
      Four(Letter(a, s[0]), Letter(a, s[1]), Letter(a, r), Letter(a, t), if |s| >= 4 then Letters(a, s[4..]) else "");
      if |s| >= 3 {
        LettersFrom(a, s, 2);
      }
      if |s| >= 4 {
        LettersFrom(a, s, 3);
      }
    }
  }
}
