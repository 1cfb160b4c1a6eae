/**
 * String operations the JavaScript sources rely on: `split` on a one-character separator,
 * `join`, `startsWith`/`endsWith`, ASCII `toUpperCase`, the `\s` character class, and
 * `String.prototype.replace` with a regular expression that has no `g` flag (only the
 * first match is replaced). Regular expressions are written as hand-made patterns: a
 * sequence of literal characters and `.` wildcards.
 */
module Strings {
  import opened Common

  /** The characters JavaScript's `\s` class matches (ECMAScript WhiteSpace and LineTerminator). */
  predicate IsJsSpace(c: char) {
    c == ' ' || c == '\t' || c == '\n' || c == '\r' || c == '\U{0B}' || c == '\U{0C}'
    || c == '\U{A0}' || c == '\U{1680}' || ('\U{2000}' <= c <= '\U{200A}')
    || c == '\U{2028}' || c == '\U{2029}' || c == '\U{202F}' || c == '\U{205F}'
    || c == '\U{3000}' || c == '\U{FEFF}'
  }

  /** The characters a regular-expression `.` does not match without the `s` flag. */
  predicate IsLineTerminator(c: char) {
    c == '\n' || c == '\r' || c == '\U{2028}' || c == '\U{2029}'
  }

  predicate IsAsciiLetter(c: char) {
    ('a' <= c <= 'z') || ('A' <= c <= 'Z')
  }

  predicate IsAsciiDigit(c: char) {
    '0' <= c <= '9'
  }

  predicate StartsWith(s: string, prefix: string) {
    |prefix| <= |s| && s[..|prefix|] == prefix
  }

  predicate EndsWith(s: string, suffix: string) {
    |suffix| <= |s| && s[|s| - |suffix|..] == suffix
  }

  /** `s.split(c)` for a one-character separator: never empty, "" gives [""]. */
  function Split(s: string, c: char): (parts: seq<string>)
    ensures |parts| >= 1
    decreases |s|
  {
    if |s| == 0 then [""]
    else if s[0] == c then [""] + Split(s[1..], c)
    else
      var rest := Split(s[1..], c);
      [[s[0]] + rest[0]] + rest[1..]
  }

  /** `parts.join(sep)`. */
  function Join(parts: seq<string>, sep: string): string
  {
    if |parts| == 0 then ""
    else if |parts| == 1 then parts[0]
    else parts[0] + sep + Join(parts[1..], sep)
  }

  /** The concatenation of all parts, `parts.join("")`. */
  function Concat(parts: seq<string>): string
  {
    if |parts| == 0 then "" else parts[0] + Concat(parts[1..])
  }

  lemma {:induction false} ConcatAppend(a: seq<string>, b: seq<string>)
    ensures Concat(a + b) == Concat(a) + Concat(b)
  {
    if |a| == 0 {
      assert a + b == b;
    } else {
      assert (a + b)[1..] == a[1..] + b;
      ConcatAppend(a[1..], b);
    }
  }

  lemma {:induction false} ConcatLength(parts: seq<string>)
    ensures |Concat(parts)| == SumLengths(parts)
  {
    if |parts| > 0 {
      ConcatLength(parts[1..]);
    }
  }

  function SumLengths(parts: seq<string>): nat
  {
    if |parts| == 0 then 0 else |parts[0]| + SumLengths(parts[1..])
  }

  /** Splitting never yields a part that holds the separator. */
  lemma {:induction false} SplitPartsFree(s: string, c: char)
    ensures forall i :: 0 <= i < |Split(s, c)| ==> c !in Split(s, c)[i]
    decreases |s|
  {
    if |s| > 0 {
      SplitPartsFree(s[1..], c);
    }
  }

  /** A string without the separator splits into itself alone. */
  lemma {:induction false} SplitNoSeparator(s: string, c: char)
    requires c !in s
    ensures Split(s, c) == [s]
    decreases |s|
  {
    if |s| > 0 {
      assert s[0] != c;
      assert c !in s[1..] by { forall k | 0 <= k < |s| - 1 ensures s[1..][k] != c { assert s[1..][k] == s[k + 1]; } }
      SplitNoSeparator(s[1..], c);
      assert [s[0]] + s[1..] == s;
    }
  }

  /** One separator between two strings splits them apart: the pieces of each stay as they were. */
  lemma {:induction false} SplitAppend(x: string, c: char, y: string)
    ensures Split(x + [c] + y, c) == Split(x, c) + Split(y, c)
    decreases |x|
  {
    var s := x + [c] + y;
    if |x| == 0 {
      assert s == [c] + y;
      assert s[1..] == y;
    } else {
      assert s[0] == x[0];
      assert s[1..] == x[1..] + [c] + y;
      SplitAppend(x[1..], c, y);
    }
  }

  /** Joining the pieces of a split with the separator gives back the string. */
  lemma {:induction false} JoinSplit(s: string, c: char)
    ensures Join(Split(s, c), [c]) == s
    decreases |s|
  {
    if |s| > 0 {
      var rest := Split(s[1..], c);
      JoinSplit(s[1..], c);
      if s[0] == c {
        assert Split(s, c) == [""] + rest;
        assert ([""] + rest)[1..] == rest;
        assert s == [c] + s[1..];
      } else {
        var parts := Split(s, c);
        assert parts == [[s[0]] + rest[0]] + rest[1..];
        if |rest| == 1 {
          assert s == [s[0]] + s[1..];
        } else {
          assert parts[1..] == rest[1..];
          assert Join(rest, [c]) == rest[0] + [c] + Join(rest[1..], [c]);
          assert s == [s[0]] + s[1..];
        }
      }
    }
  }

  /** Splitting a join gives back the parts, when none of them holds the separator. */
  lemma {:induction false} SplitJoin(parts: seq<string>, c: char)
    requires |parts| >= 1
    requires forall i :: 0 <= i < |parts| ==> c !in parts[i]
    ensures Split(Join(parts, [c]), c) == parts
    decreases |parts|
  {
    if |parts| == 1 {
      SplitNoSeparator(parts[0], c);
    } else {
      SplitJoin(parts[1..], c);
      SplitNoSeparator(parts[0], c);
      SplitAppend(parts[0], c, Join(parts[1..], [c]));
      assert [parts[0]] + parts[1..] == parts;
    }
  }

  lemma {:induction false} JoinAppendOne(parts: seq<string>, last: string, sep: string)
    requires |parts| >= 1
    ensures Join(parts + [last], sep) == Join(parts, sep) + sep + last
    decreases |parts|
  {
    if |parts| == 1 {
      assert (parts + [last])[1..] == [last];
    } else {
      assert (parts + [last])[1..] == parts[1..] + [last];
      JoinAppendOne(parts[1..], last, sep);
    }
  }

  /** Joining two non-empty lists of parts puts one separator between their joins. */
  lemma {:induction false} JoinConcat(a: seq<string>, b: seq<string>, sep: string)
    requires |a| >= 1 && |b| >= 1
    ensures Join(a + b, sep) == Join(a, sep) + sep + Join(b, sep)
    decreases |a|
  {
    if |a| == 1 {
      assert (a + b)[1..] == b;
    } else {
      assert (a + b)[1..] == a[1..] + b;
      JoinConcat(a[1..], b, sep);
    }
  }

  /** Splitting a join into which one extra piece was inserted gives back the parts with the
      pieces of the inserted string in between, whatever that string holds. */
  lemma {:induction false} SplitJoinInsert(a: seq<string>, r: string, b: seq<string>, c: char)
    requires forall i :: 0 <= i < |a| ==> c !in a[i]
    requires forall i :: 0 <= i < |b| ==> c !in b[i]
    ensures Split(Join(a + [r] + b, [c]), c) == a + Split(r, c) + b
  {
    var t := [r] + b;
    var pieces := Split(r, c);
    SplitJoinCons(r, b, c);
    assert a + [r] + b == a + t;
    assert a + pieces + b == a + (pieces + b);
    if |a| == 0 {
      assert a + t == t;
      assert a + (pieces + b) == pieces + b;
    } else {
      SplitJoinPrefix(a, t, c);
    }
  }

  /** Splitting the join of two lists of parts, the first of them free of the separator. */
  lemma {:induction false} SplitJoinPrefix(a: seq<string>, t: seq<string>, c: char)
    requires |a| >= 1 && |t| >= 1
    requires forall i :: 0 <= i < |a| ==> c !in a[i]
    ensures Split(Join(a + t, [c]), c) == a + Split(Join(t, [c]), c)
  {
    JoinConcat(a, t, [c]);
    SplitAppend(Join(a, [c]), c, Join(t, [c]));
    SplitJoin(a, c);
  }

  lemma {:induction false} SplitJoinCons(r: string, b: seq<string>, c: char)
    requires forall i :: 0 <= i < |b| ==> c !in b[i]
    ensures Split(Join([r] + b, [c]), c) == Split(r, c) + b
  {
    if |b| == 0 {
      assert [r] + b == [r];
    } else {
      assert ([r] + b)[1..] == b;
      assert Join([r] + b, [c]) == r + [c] + Join(b, [c]);
      SplitAppend(r, c, Join(b, [c]));
      SplitJoin(b, c);
    }
  }

  /** All the lists of parts, one after the other. */
  function Flatten(blocks: seq<seq<string>>): seq<string>
  {
    if |blocks| == 0 then [] else blocks[0] + Flatten(blocks[1..])
  }

  /** Flattening blocks of `w` parts each gives `w` parts per block. */
  lemma {:induction false} FlattenLength(blocks: seq<seq<string>>, w: nat)
    requires forall i :: 0 <= i < |blocks| ==> |blocks[i]| == w
    ensures |Flatten(blocks)| == w * |blocks|
    decreases |blocks|
  {
    if |blocks| > 0 {
      FlattenLength(blocks[1..], w);
      assert w * |blocks| == w + w * (|blocks| - 1);
    }
  }

  /** ... and puts part `j` of block `i` at index `w * i + j`. */
  lemma {:induction false} FlattenIndex(blocks: seq<seq<string>>, w: nat, i: nat, j: nat)
    requires forall k :: 0 <= k < |blocks| ==> |blocks[k]| == w
    requires i < |blocks| && j < w
    ensures w * i + j < |Flatten(blocks)|
    ensures Flatten(blocks)[w * i + j] == blocks[i][j]
    decreases i
  {
    var rest := Flatten(blocks[1..]);
    assert Flatten(blocks) == blocks[0] + rest;
    if i > 0 {
      FlattenIndex(blocks[1..], w, i - 1, j);
      assert w * i + j == w + (w * (i - 1) + j);
    }
  }

  /** Each list of lines written after a newline: `"\n" + lines.join("\n")`. */
  function NewlineBlocks(blocks: seq<seq<string>>): seq<string>
  {
    if |blocks| == 0 then [] else ["\n" + Join(blocks[0], "\n")] + NewlineBlocks(blocks[1..])
  }

  /** No line holds the character `c`. */
  predicate LinesAvoid(lines: seq<string>, c: char) {
    forall i :: 0 <= i < |lines| ==> c !in lines[i]
  }

  lemma LinesAvoidAppend(a: seq<string>, b: seq<string>, c: char)
    requires LinesAvoid(a, c) && LinesAvoid(b, c)
    ensures LinesAvoid(a + b, c)
  {
    forall i | 0 <= i < |a + b| ensures c !in (a + b)[i] {
      if i >= |a| {
        assert (a + b)[i] == b[i - |a|];
      }
    }
  }

  /** Blocks that each start with a newline, written one after the other, read back as an
      empty first line followed by the lines of every block in order. */
  lemma SplitNewlineBlocks(blocks: seq<seq<string>>)
    requires forall i :: 0 <= i < |blocks| ==> |blocks[i]| >= 1 && LinesAvoid(blocks[i], '\n')
    ensures Split(Concat(NewlineBlocks(blocks)), '\n') == [""] + Flatten(blocks)
  {
    if |blocks| == 0 {
    } else {
      var body := Join(blocks[0], "\n") + Concat(NewlineBlocks(blocks[1..]));
      assert Concat(NewlineBlocks(blocks)) == "" + ['\n'] + body;
      SplitAppend("", '\n', body);
      SplitBlocksTail(blocks);
    }
  }

  lemma {:induction false} SplitBlocksTail(blocks: seq<seq<string>>)
    requires |blocks| >= 1
    requires forall i :: 0 <= i < |blocks| ==> |blocks[i]| >= 1 && LinesAvoid(blocks[i], '\n')
    ensures Split(Join(blocks[0], "\n") + Concat(NewlineBlocks(blocks[1..])), '\n') == Flatten(blocks)
    decreases |blocks|
  {
    var first := Join(blocks[0], "\n");
    SplitJoin(blocks[0], '\n');
    if |blocks| == 1 {
      assert first + Concat(NewlineBlocks(blocks[1..])) == first;
      assert Flatten(blocks) == blocks[0] + [];
    } else {
      var rest := blocks[1..];
      var body := Join(rest[0], "\n") + Concat(NewlineBlocks(rest[1..]));
      assert Concat(NewlineBlocks(rest)) == "\n" + body;
      assert first + Concat(NewlineBlocks(rest)) == first + ['\n'] + body;
      SplitAppend(first, '\n', body);
      SplitBlocksTail(rest);
    }
  }

  /** A character in none of the parts nor in the separator is not in their join. */
  lemma {:induction false} NotInJoin(parts: seq<string>, sep: string, c: char)
    requires c !in sep
    requires forall i :: 0 <= i < |parts| ==> c !in parts[i]
    ensures c !in Join(parts, sep)
    decreases |parts|
  {
    if |parts| > 1 {
      NotInJoin(parts[1..], sep, c);
    }
  }

  /** A character in none of the parts is not in their concatenation. */
  lemma {:induction false} NotInConcat(parts: seq<string>, c: char)
    requires forall i :: 0 <= i < |parts| ==> c !in parts[i]
    ensures c !in Concat(parts)
    decreases |parts|
  {
    if |parts| > 0 {
      NotInConcat(parts[1..], c);
    }
  }

  /** Each part followed by the separator, except the last: what writing the parts one by
      one with `part + (i !== last ? sep : "")` produces. */
  function Terminated(parts: seq<string>, sep: string): (r: seq<string>)
    ensures |r| == |parts|
    ensures forall i :: 0 <= i < |parts| ==> r[i] == parts[i] + (if i < |parts| - 1 then sep else "")
  {
    seq(|parts|, i requires 0 <= i < |parts| => parts[i] + (if i < |parts| - 1 then sep else ""))
  }

  /** Writing separator-terminated parts one after the other is the same as joining them. */
  lemma {:induction false} ConcatTerminated(parts: seq<string>, sep: string)
    ensures Concat(Terminated(parts, sep)) == Join(parts, sep)
    decreases |parts|
  {
    if |parts| > 1 {
      var t := Terminated(parts, sep);
      assert t[1..] == Terminated(parts[1..], sep);
      ConcatTerminated(parts[1..], sep);
    } else if |parts| == 1 {
      assert Terminated(parts, sep)[1..] == [];
    }
  }

  /** The number a string of decimal digits denotes, most significant digit first. */
  function DigitsValue(s: string): int
    decreases |s|
  {
    if |s| == 0 then 0 else DigitsValue(s[..|s| - 1]) * 10 + (s[|s| - 1] as int - '0' as int)
  }

  /** The decimal digits of a natural number, as `String(n)` writes it: they denote `n`,
    * and there is no leading zero. */
  function NatText(n: nat): (r: string)
    ensures |r| >= 1
    ensures forall i :: 0 <= i < |r| ==> IsAsciiDigit(r[i])
    ensures DigitsValue(r) == n
    ensures r[0] == '0' ==> n == 0
    decreases n
  {
    if n < 10 then [('0' as int + n) as char]
    else NatText(n / 10) + [('0' as int + n % 10) as char]
  }

  /** ASCII-only `toUpperCase`. */
  function ToUpper(s: string): (r: string)
    ensures |r| == |s|
    ensures forall i :: 0 <= i < |s| ==> r[i] == UpperChar(s[i])
  {
    if |s| == 0 then "" else [UpperChar(s[0])] + ToUpper(s[1..])
  }

  function UpperChar(c: char): char {
    if 'a' <= c <= 'z' then (c as int - 32) as char else c
  }

  /** One element of a regular expression without quantifiers: a literal character or `.`. */
  datatype PatternElement = Literal(c: char) | AnyChar

  type Pattern = seq<PatternElement>

  /** The pattern of a literal string (a regular expression with no special characters). */
  function LiteralPattern(s: string): (p: Pattern)
    ensures |p| == |s|
    ensures forall i :: 0 <= i < |s| ==> p[i] == Literal(s[i])
  {
    if |s| == 0 then [] else [Literal(s[0])] + LiteralPattern(s[1..])
  }

  predicate ElementMatches(e: PatternElement, c: char) {
    match e
    case Literal(d) => c == d
    case AnyChar => !IsLineTerminator(c)
  }

  /** The pattern matches `s` starting at index `i`. */
  predicate MatchesAt(s: string, i: nat, p: Pattern) {
    i + |p| <= |s| && forall k :: 0 <= k < |p| ==> ElementMatches(p[k], s[i + k])
  }

  /** The first index at or after `from` where the pattern matches, scanning left to right. */
  function FindFrom(s: string, p: Pattern, from: nat): (r: Option<nat>)
    ensures r.Some? ==> from <= r.value && MatchesAt(s, r.value, p)
    ensures r.Some? ==> forall j :: from <= j < r.value ==> !MatchesAt(s, j, p)
    ensures r.None? ==> forall j :: from <= j ==> !MatchesAt(s, j, p)
    decreases |s| - from
  {
    if from + |p| > |s| then None
    else if MatchesAt(s, from, p) then Some(from)
    else FindFrom(s, p, from + 1)
  }

  /** `s.replace(re, replacement)` with a regular expression without the `g` flag, whose
      replacement holds no `$` patterns: only the leftmost match is replaced. */
  function ReplaceFirst(s: string, p: Pattern, replacement: string): string
  {
    match FindFrom(s, p, 0)
    case None => s
    case Some(i) => s[..i] + replacement + s[i + |p|..]
  }

  /** What `ReplaceFirst` does, in terms of the matches of the pattern: with no match the
      text is unchanged; otherwise the text before the leftmost match is kept (and holds no
      match itself), the match is swapped for the replacement and the rest is kept as it was. */
  lemma ReplaceFirstSpec(s: string, p: Pattern, replacement: string)
    ensures (forall j :: !MatchesAt(s, j, p)) ==> ReplaceFirst(s, p, replacement) == s
    ensures forall i: nat :: MatchesAt(s, i, p) && (forall j: nat :: j < i ==> !MatchesAt(s, j, p)) ==>
      ReplaceFirst(s, p, replacement) == s[..i] + replacement + s[i + |p|..]
  {
    var r := FindFrom(s, p, 0);
    forall i: nat | MatchesAt(s, i, p) && (forall j: nat :: j < i ==> !MatchesAt(s, j, p))
      ensures ReplaceFirst(s, p, replacement) == s[..i] + replacement + s[i + |p|..]
    {
      assert r.Some?;
      assert r.value == i;
    }
  }
}
