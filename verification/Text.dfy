// Strings as the Python and JavaScript sources see them: sequences of code points.

module Text {

  datatype Option<+T> = None | Some(value: T)

  /** Index of the first `c` in `s`, or `|s|` when there is none. */
  function IndexOf(s: string, c: char): (k: nat)
    ensures k <= |s|
    ensures forall i :: 0 <= i < k ==> s[i] != c
    ensures k < |s| ==> s[k] == c
  {
    if s == "" || s[0] == c then 0 else 1 + IndexOf(s[1..], c)
  }

  lemma {:induction false} IndexOfConcat(a: string, b: string, c: char)
    ensures IndexOf(a, c) < |a| ==> IndexOf(a + b, c) == IndexOf(a, c)
    ensures IndexOf(a, c) == |a| ==> IndexOf(a + b, c) == |a| + IndexOf(b, c)
  {
    if a == "" {
      assert a + b == b;
    } else {
      IndexOfConcat(a[1..], b, c);
      assert (a + b)[1..] == a[1..] + b;
    }
  }

  /** `sep.join(parts)`. */
  function Join(sep: string, parts: seq<string>): string {
    if parts == [] then ""
    else if |parts| == 1 then parts[0]
    else parts[0] + sep + Join(sep, parts[1..])
  }

  /** `s.split("\n")`: never empty. */
  function Split(s: string): (lines: seq<string>)
    ensures |lines| >= 1
    ensures forall l :: l in lines ==> '\n' !in l
  {
    var k := IndexOf(s, '\n');
    if k == |s| then [s] else [s[..k]] + Split(s[k + 1..])
  }

  lemma SplitOfLine(line: string)
    requires '\n' !in line
    ensures IndexOf(line, '\n') == |line| && Split(line) == [line]
  {
  }

  lemma SplitOfCons(line: string, rest: string)
    requires '\n' !in line
    ensures Split(line + ("\n" + rest)) == [line] + Split(rest)
  {
    var s := line + ("\n" + rest);
    SplitOfLine(line);
    IndexOfConcat(line, "\n" + rest, '\n');
    assert IndexOf("\n" + rest, '\n') == 0;
    assert s[..|line|] == line;
    assert s[|line| + 1..] == rest;
  }

  lemma {:induction false} SplitOfJoin(parts: seq<string>)
    requires parts != []
    requires forall l :: l in parts ==> '\n' !in l
    ensures Split(Join("\n", parts)) == parts
  {
    if |parts| == 1 {
      SplitOfLine(parts[0]);
    } else {
      var rest := Join("\n", parts[1..]);
      assert Join("\n", parts) == parts[0] + ("\n" + rest);
      SplitOfCons(parts[0], rest);
      SplitOfJoin(parts[1..]);
      assert parts == [parts[0]] + parts[1..];
    }
  }

  lemma JoinOfCons(line: string, rest: seq<string>)
    requires rest != []
    ensures Join("\n", [line] + rest) == line + "\n" + Join("\n", rest)
  {
    assert ([line] + rest)[1..] == rest;
  }

  lemma CutAt(s: string, k: nat)
    requires k < |s|
    ensures s == s[..k] + [s[k]] + s[k + 1..]
  {
  }

  lemma {:induction false} JoinOfSplit(s: string)
    ensures Join("\n", Split(s)) == s
  {
    var k := IndexOf(s, '\n');
    if k < |s| {
      var rest := Split(s[k + 1..]);
      assert Split(s) == [s[..k]] + rest;
      JoinOfSplit(s[k + 1..]);
      hide Split, IndexOf, Join;
      JoinOfCons(s[..k], rest);
      CutAt(s, k);
    }
  }

  /** Characters a list of lines occupies when each line is counted with its line break. */
  function Weight(lines: seq<string>): nat {
    if lines == [] then 0 else |lines[0]| + 1 + Weight(lines[1..])
  }

  lemma {:induction false} WeightConcat(a: seq<string>, b: seq<string>)
    ensures Weight(a + b) == Weight(a) + Weight(b)
  {
    if a == [] {
      assert a + b == b;
    } else {
      assert (a + b)[1..] == a[1..] + b;
      WeightConcat(a[1..], b);
    }
  }

  lemma {:induction false} WeightOfJoin(parts: seq<string>)
    requires parts != []
    ensures |Join("\n", parts)| + 1 == Weight(parts)
  {
    if |parts| > 1 {
      WeightOfJoin(parts[1..]);
    }
  }

  /** The code points for which `str.isspace` and the `\s` class hold. */
  predicate IsSpace(c: char) {
    var n := c as int;
    || 0x09 <= n <= 0x0d || 0x1c <= n <= 0x20 || n == 0x85 || n == 0xa0 || n == 0x1680
    || 0x2000 <= n <= 0x200a || n == 0x2028 || n == 0x2029 || n == 0x202f || n == 0x205f || n == 0x3000
  }

  /** Code points of the digit zero in every decimal digit block (the `\d` class) but the ASCII one. */
  const DECIMAL_ZEROS: seq<int> := [
    0x660, 0x6f0, 0x7c0, 0x966, 0x9e6, 0xa66, 0xae6, 0xb66, 0xbe6, 0xc66, 0xce6, 0xd66, 0xde6,
    0xe50, 0xed0, 0xf20, 0x1040, 0x1090, 0x17e0, 0x1810, 0x1946, 0x19d0, 0x1a80, 0x1a90, 0x1b50,
    0x1bb0, 0x1c40, 0x1c50, 0xa620, 0xa8d0, 0xa900, 0xa9d0, 0xa9f0, 0xaa50, 0xabf0, 0xff10, 0x104a0,
    0x10d30, 0x11066, 0x110f0, 0x11136, 0x111d0, 0x112f0, 0x11450, 0x114d0, 0x11650, 0x116c0, 0x11730,
    0x118e0, 0x11950, 0x11c50, 0x11d50, 0x11da0, 0x11f50, 0x16a60, 0x16ac0, 0x16b50, 0x1d7ce, 0x1d7d8,
    0x1d7e2, 0x1d7ec, 0x1d7f6, 0x1e140, 0x1e2f0, 0x1e4f0, 0x1e950, 0x1fbf0]

  predicate IsDecimal(c: char) {
    '0' <= c <= '9' || (0x660 <= c as int && exists z :: z in DECIMAL_ZEROS && z <= c as int <= z + 9)
  }

  /** Length of the longest prefix of `s` whose characters all satisfy `p`. */
  function Run(p: char -> bool, s: string): (k: nat)
    ensures k <= |s|
    ensures forall i :: 0 <= i < k ==> p(s[i])
    ensures k < |s| ==> !p(s[k])
  {
    if s == "" || !p(s[0]) then 0 else 1 + Run(p, s[1..])
  }

  predicate StartsWith(s: string, prefix: string) {
    prefix <= s
  }
}
