/**
 * `ansiEraseLines(count)`: the control string that erases the last `count` lines of a
 * terminal and leaves the cursor at the start of the top one. It is built from three
 * ECMA-48 control functions, each introduced by CSI (ESC '['):
 *   - EL, Erase in Line, with parameter 2, the whole line (ECMA-48 section 8.3.41): ESC [ 2 K
 *   - CUU, Cursor Up, by one line (ECMA-48 section 8.3.22): ESC [ 1 A
 *   - CHA, Cursor Character Absolute, default column 1 (ECMA-48 section 8.3.9): ESC [ G
 */
module AnsiEraseLines {
  import opened Common
  import opened Strings

  const ERASE_LINE: string := "\U{1B}[2K"
  const CURSOR_UP: string := "\U{1B}[1A"
  const CURSOR_LEFT: string := "\U{1B}[G"

  /** The three control functions the eraser emits. */
  datatype Control = EraseLine | CursorUp | CursorLeft

  function Text(c: Control): string {
    match c
    case EraseLine => ERASE_LINE
    case CursorUp => CURSOR_UP
    case CursorLeft => CURSOR_LEFT
  }

  /** The characters of a sequence of control functions, one after the other. */
  function Render(cs: seq<Control>): string {
    if |cs| == 0 then "" else Text(cs[0]) + Render(cs[1..])
  }

  /** Reads a string back as a sequence of the three control functions, if it is one. */
  function Parse(s: string): Option<seq<Control>>
    decreases |s|
  {
    if |s| == 0 then Some([])
    else if StartsWith(s, ERASE_LINE) then Cons(EraseLine, Parse(s[|ERASE_LINE|..]))
    else if StartsWith(s, CURSOR_UP) then Cons(CursorUp, Parse(s[|CURSOR_UP|..]))
    else if StartsWith(s, CURSOR_LEFT) then Cons(CursorLeft, Parse(s[|CURSOR_LEFT|..]))
    else None
  }

  function Cons(c: Control, rest: Option<seq<Control>>): Option<seq<Control>> {
    match rest
    case None => None
    case Some(cs) => Some([c] + cs)
  }

  /** `n` erase-then-move-up pairs: EL CUU EL CUU ... */
  function Pairs(n: nat): seq<Control> {
    if n == 0 then [] else Pairs(n - 1) + [EraseLine, CursorUp]
  }

  /** What `ansiEraseLines(count)` emits, in closed form: nothing for 0, only CHA for a
      negative count (the loop does not run but `if (count)` holds), and otherwise
      (EL CUU)^(count-1) EL CHA. */
  function EraseControls(count: int): seq<Control> {
    if count == 0 then []
    else if count < 0 then [CursorLeft]
    else Pairs(count - 1) + [EraseLine, CursorLeft]
  }

  /** The string `ansiEraseLines(count)` returns. */
  function EraseText(count: int): string {
    Render(EraseControls(count))
  }

  /** The loop of the source: one EL per line, a CUU after each but the last, then CHA
      whenever `count` is non-zero (JavaScript truthiness). */
  method EraseLines(count: int) returns (clear: string)
    ensures clear == EraseText(count)
  {
    clear := "";
    var i := 0;
    while i < count
      invariant 0 <= i
      invariant if count > 0 then i <= count else i == 0
      invariant clear == Render(if i < count then Pairs(i) else if i == 0 then [] else Pairs(i - 1) + [EraseLine])
    {
      ghost var before := clear;
      if i < count - 1 {
        RenderAppend(Pairs(i), [EraseLine, CursorUp]);
        RenderTwo(EraseLine, CursorUp);
        assert before + ERASE_LINE + CURSOR_UP == before + (ERASE_LINE + CURSOR_UP);
      } else {
        RenderAppend(Pairs(i), [EraseLine]);
        RenderOne(EraseLine);
        assert before + ERASE_LINE + "" == before + ERASE_LINE;
      }
      clear := clear + ERASE_LINE + (if i < count - 1 then CURSOR_UP else "");
      i := i + 1;
    }
    if count != 0 {
      RenderOne(CursorLeft);
      if count > 0 {
        assert clear == Render(Pairs(count - 1) + [EraseLine]);
        RenderAppend(Pairs(count - 1) + [EraseLine], [CursorLeft]);
        assert Pairs(count - 1) + [EraseLine] + [CursorLeft] == Pairs(count - 1) + [EraseLine, CursorLeft];
      } else {
        assert clear == "";
      }
      clear := clear + CURSOR_LEFT;
    }
  }

  lemma RenderOne(c: Control)
    ensures Render([c]) == Text(c)
  {
    assert [c][1..] == [];
  }

  lemma RenderTwo(c: Control, d: Control)
    ensures Render([c, d]) == Text(c) + Text(d)
  {
    assert [c, d][1..] == [d];
    RenderOne(d);
  }

  lemma {:induction false} RenderAppend(a: seq<Control>, b: seq<Control>)
    ensures Render(a + b) == Render(a) + Render(b)
  {
    if |a| == 0 {
      assert a + b == b;
    } else {
      assert (a + b)[1..] == a[1..] + b;
      RenderAppend(a[1..], b);
    }
  }

  /** The control string is uniquely readable: parsing a rendering gives the controls back. */
  lemma {:induction false} ParseRender(cs: seq<Control>)
    ensures Parse(Render(cs)) == Some(cs)
  {
    if |cs| > 0 {
      assert Render(cs) == Text(cs[0]) + Render(cs[1..]);
      ParseText(cs[0], Render(cs[1..]));
      ParseRender(cs[1..]);
      assert [cs[0]] + cs[1..] == cs;
    }
  }

  /** A control's text at the front is read as that control; no text is a prefix of
      another's, since they differ in their third character. */
  lemma ParseText(c: Control, rest: string)
    ensures Parse(Text(c) + rest) == Cons(c, Parse(rest))
  {
    var s := Text(c) + rest;
    var t := Text(c);
    assert s[..|t|] == t;
    assert s[|t|..] == rest;
    assert s[2] == t[2];
    match c
    case EraseLine =>
      assert StartsWith(s, ERASE_LINE);
    case CursorUp =>
      assert !StartsWith(s, ERASE_LINE) by {
        if |ERASE_LINE| <= |s| { assert s[..|ERASE_LINE|][2] == s[2]; }
      }
      assert StartsWith(s, CURSOR_UP);
    case CursorLeft =>
      assert !StartsWith(s, ERASE_LINE) by {
        if |ERASE_LINE| <= |s| { assert s[..|ERASE_LINE|][2] == s[2]; }
      }
      assert !StartsWith(s, CURSOR_UP) by {
        if |CURSOR_UP| <= |s| { assert s[..|CURSOR_UP|][2] == s[2]; }
      }
      assert StartsWith(s, CURSOR_LEFT);
  }

  lemma {:induction false} PairsShape(n: nat)
    ensures |Pairs(n)| == 2 * n
    ensures forall k :: 0 <= k < 2 * n ==> Pairs(n)[k] == (if k % 2 == 0 then EraseLine else CursorUp)
  {
    if n > 0 {
      PairsShape(n - 1);
    }
  }

  lemma {:induction false} PairsCounts(n: nat)
    ensures multiset(Pairs(n))[EraseLine] == n && multiset(Pairs(n))[CursorUp] == n
    ensures multiset(Pairs(n))[CursorLeft] == 0
  {
    if n > 0 {
      PairsCounts(n - 1);
      assert multiset(Pairs(n)) == multiset(Pairs(n - 1)) + multiset{EraseLine, CursorUp};
    }
  }

  lemma {:induction false} PairsRenderLength(n: nat)
    ensures |Render(Pairs(n))| == 8 * n
  {
    if n > 0 {
      PairsRenderLength(n - 1);
      RenderAppend(Pairs(n - 1), [EraseLine, CursorUp]);
      RenderTwo(EraseLine, CursorUp);
    }
  }

  /** Erasing zero lines emits nothing. */
  lemma EraseZero()
    ensures EraseText(0) == ""
  {
  }

  /** A negative count emits only the cursor-to-column-one control. */
  lemma EraseNegative(count: int)
    requires count < 0
    ensures EraseText(count) == CURSOR_LEFT
  {
    RenderOne(CursorLeft);
  }

  /** For a positive count: exactly `count` erases, `count - 1` cursor-ups each between two
      erases, and one final CHA. */
  lemma {:induction false} EraseControlsShape(count: int)
    requires count >= 1
    ensures var cs := EraseControls(count);
      && |cs| == 2 * count
      && multiset(cs)[EraseLine] == count
      && multiset(cs)[CursorUp] == count - 1
      && multiset(cs)[CursorLeft] == 1
      && cs[|cs| - 1] == CursorLeft
      && (forall i :: 0 <= i < |cs| && cs[i] == CursorUp ==>
            0 < i < |cs| - 1 && cs[i - 1] == EraseLine && cs[i + 1] == EraseLine)
  {
    var n := count - 1;
    var cs := EraseControls(count);
    PairsShape(n);
    PairsCounts(n);
    assert cs == Pairs(n) + [EraseLine, CursorLeft];
    assert multiset(cs) == multiset(Pairs(n)) + multiset{EraseLine, CursorLeft};
    forall i | 0 <= i < |cs| && cs[i] == CursorUp
      ensures 0 < i < |cs| - 1 && cs[i - 1] == EraseLine && cs[i + 1] == EraseLine
    {
      CursorUpBetweenErases(n, i);
    }
  }

  lemma CursorUpBetweenErases(n: nat, i: int)
    requires 0 <= i < |Pairs(n)| + 2
    requires (Pairs(n) + [EraseLine, CursorLeft])[i] == CursorUp
    ensures 0 < i < 2 * n + 1
    ensures (Pairs(n) + [EraseLine, CursorLeft])[i - 1] == EraseLine
    ensures (Pairs(n) + [EraseLine, CursorLeft])[i + 1] == EraseLine
  {
    PairsShape(n);
    var cs := Pairs(n) + [EraseLine, CursorLeft];
    assert i < 2 * n;
    assert i % 2 == 1;
    assert cs[i - 1] == Pairs(n)[i - 1];
    if i + 1 < 2 * n {
      assert cs[i + 1] == Pairs(n)[i + 1];
    }
  }

  /** For a positive count the string is (EL CUU)^(count-1) EL CHA: 8 * count - 1 characters,
      ending in CHA, and it reads back as exactly those controls. */
  lemma {:induction false} EraseTextShape(count: int)
    requires count >= 1
    ensures EraseText(count) == Render(Pairs(count - 1)) + ERASE_LINE + CURSOR_LEFT
    ensures |EraseText(count)| == 8 * count - 1
    ensures EndsWith(EraseText(count), CURSOR_LEFT)
    ensures Parse(EraseText(count)) == Some(EraseControls(count))
  {
    var n := count - 1;
    var cs := EraseControls(count);
    PairsRenderLength(n);
    RenderAppend(Pairs(n), [EraseLine, CursorLeft]);
    RenderTwo(EraseLine, CursorLeft);
    var s := EraseText(count);
    assert s == Render(Pairs(n)) + (ERASE_LINE + CURSOR_LEFT);
    assert s[|s| - |CURSOR_LEFT|..] == CURSOR_LEFT;
    ParseRender(cs);
  }
}
