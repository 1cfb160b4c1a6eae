/**
 * The subfolder specification of `create` read as its regular expression,
 * `/^([a-zA-Z]+(?:-[a-zA-Z]+)?(\([a-zA-Z]+(?:-[a-zA-Z]+)?\))?\s*)*$/`, one predicate per
 * part, and the proof that the scanning automaton `CreateCommand.ValidFolders` accepts
 * exactly the answers this grammar describes.
 */
module FolderGrammar {
  import opened Strings
  import opened CreateCommand

  /** `[a-zA-Z]+` */
  predicate Letters(s: string) {
    |s| >= 1 && forall i :: 0 <= i < |s| ==> IsAsciiLetter(s[i])
  }

  /** `[a-zA-Z]+-[a-zA-Z]+` */
  predicate HyphenName(w: string) {
    exists k :: 0 < k < |w| - 1 && w[k] == '-' && Letters(w[..k]) && Letters(w[k + 1..])
  }

  /** `[a-zA-Z]+(?:-[a-zA-Z]+)?`: the name of a folder or of an environment. */
  predicate FolderName(w: string) {
    Letters(w) || HyphenName(w)
  }

  /** `(\([a-zA-Z]+(?:-[a-zA-Z]+)?\))?` */
  predicate EnvSuffix(u: string) {
    u == "" || (|u| >= 3 && u[0] == '(' && u[|u| - 1] == ')' && FolderName(u[1..|u| - 1]))
  }

  /** `\s*` */
  predicate Blanks(u: string) {
    forall i :: 0 <= i < |u| ==> IsJsSpace(u[i])
  }

  /** One repetition of the group: a name, an optional environment, any blanks. */
  predicate Item(t: string) {
    exists a, b :: 0 < a <= b <= |t| && FolderName(t[..a]) && EnvSuffix(t[a..b]) && Blanks(t[b..])
  }

  /** `^( ... )*$`: the answer is a sequence of items. */
  predicate Items(s: string)
    decreases |s|
  {
    |s| == 0 || exists k :: 0 <= k < |s| && Items(s[..k]) && Item(s[k..])
  }

  /** The automaton accepts an answer exactly when it is a sequence of items. */
  lemma ValidFoldersGrammar(s: string)
    ensures ValidFolders(s) <==> Items(s)
  {
    if Items(s) {
      ItemsAccepted(s);
    }
    if ValidFolders(s) {
      ScanInvariant(s);
      AcceptedItems(Scan(Start, s), s);
    }
  }

  // ---------------------------------------------------------------------------------
  // Scanning, piece by piece.
  // ---------------------------------------------------------------------------------

  lemma {:induction false} ScanAppend(q: ScanState, a: string, b: string)
    ensures Scan(q, a + b) == Scan(Scan(q, a), b)
    decreases |a|
  {
    if |a| > 0 {
      assert (a + b)[0] == a[0];
      assert (a + b)[1..] == a[1..] + b;
      ScanAppend(Next(q, a[0]), a[1..], b);
    } else {
      assert a + b == b;
    }
  }

  /** The states a scan is in right after a name. */
  predicate AfterName(q: ScanState) {
    q.Word? || q.SecondOrWord? || q.Second?
  }

  /** The states in a letter run, which more letters do not leave. */
  lemma {:induction false} LettersStay(q: ScanState, s: string)
    requires q.Word? || q.SecondOrWord? || q.Inner? || q.InnerSecond?
    requires forall i :: 0 <= i < |s| ==> IsAsciiLetter(s[i])
    ensures Scan(q, s) == q
    decreases |s|
  {
    if |s| > 0 {
      assert Next(q, s[0]) == q;
      LettersStay(q, s[1..]);
    }
  }

  /** A letter run read from an accepting state ends in a word state. */
  lemma LettersFromAccepting(q: ScanState, s: string)
    requires Accepting(q) && Letters(s)
    ensures Scan(q, s).Word? || Scan(q, s).SecondOrWord?
  {
    var r := Next(q, s[0]);
    assert r.Word? || r.SecondOrWord?;
    LettersStay(r, s[1..]);
  }

  /** The tail `-[a-zA-Z]+` of a hyphenated name, read from a word state. */
  lemma HyphenTail(q: ScanState, s: string)
    requires (q.Word? || q.SecondOrWord?) && |s| >= 2 && s[0] == '-' && Letters(s[1..])
    ensures Scan(q, s).Second? || Scan(q, s).SecondOrWord?
  {
    assert Next(q, s[0]) == Hyphen;
    assert s[1..][1..] == s[2..];
    assert Next(Hyphen, s[1]) == Second;
    assert Scan(q, s) == Scan(Second, s[2..]);
    if |s| > 2 {
      assert Next(Second, s[2]) == SecondOrWord;
      assert s[2..][1..] == s[3..];
      LettersStay(SecondOrWord, s[3..]);
    }
  }

  lemma NameScan(q: ScanState, w: string)
    requires Accepting(q) && FolderName(w)
    ensures AfterName(Scan(q, w))
  {
    if Letters(w) {
      LettersFromAccepting(q, w);
    } else {
      var k :| 0 < k < |w| - 1 && w[k] == '-' && Letters(w[..k]) && Letters(w[k + 1..]);
      assert w == w[..k] + w[k..];
      ScanAppend(q, w[..k], w[k..]);
      LettersFromAccepting(q, w[..k]);
      assert w[k..][1..] == w[k + 1..];
      HyphenTail(Scan(q, w[..k]), w[k..]);
    }
  }

  /** An environment name read right after "(" ends inside the parentheses. */
  lemma EnvNameScan(m: string)
    requires FolderName(m)
    ensures Scan(Open, m).Inner? || Scan(Open, m).InnerSecond?
  {
    if Letters(m) {
      LettersStay(Inner, m[1..]);
    } else {
      var k :| 0 < k < |m| - 1 && m[k] == '-' && Letters(m[..k]) && Letters(m[k + 1..]);
      EnvHyphenNameScan(m, k);
    }
  }

  lemma EnvHyphenNameScan(m: string, k: int)
    requires 0 < k < |m| - 1 && m[k] == '-' && Letters(m[..k]) && Letters(m[k + 1..])
    ensures Scan(Open, m) == InnerSecond
  {
    var t := m[k..];
    assert m == m[..k] + t;
    ScanAppend(Open, m[..k], t);
    LettersStay(Inner, m[..k][1..]);
    assert Scan(Open, m[..k]) == Inner;
    assert t[1..][1..] == t[2..] == m[k + 2..];
    assert Scan(Inner, t) == Scan(InnerSecond, t[2..]);
    LettersStay(InnerSecond, t[2..]);
  }

  lemma EnvScan(q: ScanState, u: string)
    requires AfterName(q) && EnvSuffix(u)
    ensures AfterName(Scan(q, u)) || Scan(q, u).Closed?
  {
    if u != "" {
      var m := u[1..|u| - 1];
      assert u[1..] == m + [')'];
      assert Scan(q, u) == Scan(Open, u[1..]);
      ScanAppend(Open, m, [')']);
      EnvNameScan(m);
    }
  }

  lemma {:induction false} BlanksScan(q: ScanState, u: string)
    requires AfterName(q) || q.Closed? || q.Spaces?
    requires Blanks(u)
    ensures AfterName(Scan(q, u)) || Scan(q, u).Closed? || Scan(q, u).Spaces?
    decreases |u|
  {
    if |u| > 0 {
      assert IsJsSpace(u[0]);
      assert Next(q, u[0]) == Spaces;
      BlanksScan(Spaces, u[1..]);
    }
  }

  /** An item read from any accepting state leaves the scan in an accepting state. */
  lemma ItemScan(q: ScanState, t: string)
    requires Accepting(q) && Item(t)
    ensures Accepting(Scan(q, t))
  {
    var a, b :| 0 < a <= b <= |t| && FolderName(t[..a]) && EnvSuffix(t[a..b]) && Blanks(t[b..]);
    PiecesScan(q, t[..a], t[a..b], t[b..]);
    assert t == t[..a] + t[a..b] + t[b..];
  }

  /** A name, an optional environment and blanks, read in turn from an accepting state. */
  lemma PiecesScan(q: ScanState, name: string, env: string, blanks: string)
    requires Accepting(q) && FolderName(name) && EnvSuffix(env) && Blanks(blanks)
    ensures Accepting(Scan(q, name + env + blanks))
  {
    ScanAppend(q, name + env, blanks);
    ScanAppend(q, name, env);
    NameScan(q, name);
    var q1 := Scan(q, name);
    EnvScan(q1, env);
    BlanksScan(Scan(q1, env), blanks);
  }

  lemma {:induction false} ItemsAccepted(s: string)
    requires Items(s)
    ensures ValidFolders(s)
    decreases |s|
  {
    if |s| > 0 {
      var k :| 0 <= k < |s| && Items(s[..k]) && Item(s[k..]);
      ItemsAccepted(s[..k]);
      assert s == s[..k] + s[k..];
      ScanAppend(Start, s[..k], s[k..]);
      ItemScan(Scan(Start, s[..k]), s[k..]);
    }
  }

  // ---------------------------------------------------------------------------------
  // What each state of the automaton says about the text read so far.
  // ---------------------------------------------------------------------------------

  /** Complete items, then the letters of a name with no hyphen yet. */
  predicate InLetters(p: string) {
    exists i :: 0 <= i < |p| && Items(p[..i]) && Letters(p[i..])
  }

  /** Complete items, then a whole name. */
  predicate InName(p: string) {
    exists i :: 0 <= i < |p| && Items(p[..i]) && FolderName(p[i..])
  }

  /** Complete items, a name, "(", then the letters of an environment with no hyphen yet. */
  predicate InEnvLetters(p: string) {
    exists j :: 0 <= j < |p| && p[j] == '(' && InName(p[..j]) && Letters(p[j + 1..])
  }

  /** Complete items, a name, "(", then a hyphenated environment name. */
  predicate InEnvHyphenated(p: string) {
    exists j :: 0 <= j < |p| && p[j] == '(' && InName(p[..j]) && HyphenName(p[j + 1..])
  }

  /** Nothing but complete items, at least one character of them. */
  predicate ItemsDone(p: string) {
    |p| >= 1 && Items(p)
  }

  predicate Inv(q: ScanState, p: string) {
    match q
    case Start => p == ""
    case Word => InLetters(p)
    case SecondOrWord => InLetters(p)
    case Hyphen => |p| >= 1 && p[|p| - 1] == '-' && InLetters(p[..|p| - 1])
    case Second => InName(p)
    case Open => |p| >= 1 && p[|p| - 1] == '(' && InName(p[..|p| - 1])
    case Inner => InEnvLetters(p)
    case InnerHyphen => |p| >= 1 && p[|p| - 1] == '-' && InEnvLetters(p[..|p| - 1])
    case InnerSecond => InEnvHyphenated(p)
    case Closed => ItemsDone(p)
    case Spaces => ItemsDone(p)
    case Dead => true
  }

  lemma LettersSnoc(s: string, c: char)
    requires Letters(s) && IsAsciiLetter(c)
    ensures Letters(s + [c])
  {
    assert forall i :: 0 <= i < |s| ==> (s + [c])[i] == s[i];
  }

  /** A name followed by blanks is an item, and so completes the items before it. */
  lemma NameEndsItems(p: string, i: int, blanks: string)
    requires 0 <= i < |p| && Items(p[..i]) && FolderName(p[i..]) && Blanks(blanks)
    ensures ItemsDone(p + blanks)
  {
    var s := p + blanks;
    var t := s[i..];
    var a := |p| - i;
    assert t[..a] == p[i..] && t[a..a] == "" && t[a..] == blanks;
    assert Item(t);
    assert s[..i] == p[..i];
  }

  /** A name directly followed by an environment in parentheses is an item. */
  lemma NameWithEnv(t: string, a: int)
    requires 0 < a && a + 3 <= |t| && FolderName(t[..a])
    requires t[a] == '(' && t[|t| - 1] == ')' && FolderName(t[a + 1..|t| - 1])
    ensures Item(t)
  {
    var u := t[a..];
    assert u[1..|u| - 1] == t[a + 1..|t| - 1];
    assert EnvSuffix(u);
    assert t[a..|t|] == u && t[|t|..] == "";
  }

  /** A name, an environment in parentheses, then ")" closes an item. */
  lemma CloseEnv(p: string, j: int)
    requires 0 <= j < |p| && p[j] == '(' && InName(p[..j]) && FolderName(p[j + 1..])
    ensures ItemsDone(p + [')'])
  {
    var i :| 0 <= i < |p[..j]| && Items(p[..j][..i]) && FolderName(p[..j][i..]);
    var s := p + [')'];
    var t := s[i..];
    assert t[..j - i] == p[..j][i..];
    assert t[j - i] == '(';
    assert t[j - i + 1..|t| - 1] == p[j + 1..];
    NameWithEnv(t, j - i);
    assert s[..i] == p[..j][..i];
  }

  lemma AddBlank(p: string, c: char)
    requires ItemsDone(p) && IsJsSpace(c)
    ensures ItemsDone(p + [c])
  {
    var k :| 0 <= k < |p| && Items(p[..k]) && Item(p[k..]);
    var t := p[k..];
    var a, b :| 0 < a <= b <= |t| && FolderName(t[..a]) && EnvSuffix(t[a..b]) && Blanks(t[b..]);
    var s := p + [c];
    var t' := s[k..];
    assert t' == t + [c];
    assert t'[..a] == t[..a] && t'[a..b] == t[a..b] && t'[b..] == t[b..] + [c];
    assert Item(t');
    assert s[..k] == p[..k];
  }

  lemma AfterItemsLetter(p: string, c: char)
    requires (p == "" || ItemsDone(p)) && IsAsciiLetter(c)
    ensures InLetters(p + [c])
  {
    var s := p + [c];
    assert s[..|p|] == p && s[|p|..] == [c];
  }

  lemma StepLetters(p: string, c: char)
    requires InLetters(p)
    ensures Inv(Next(Word, c), p + [c]) && Inv(Next(SecondOrWord, c), p + [c])
  {
    var i :| 0 <= i < |p| && Items(p[..i]) && Letters(p[i..]);
    var s := p + [c];
    assert s[..i] == p[..i] && s[i..] == p[i..] + [c];
    if IsAsciiLetter(c) {
      LettersSnoc(p[i..], c);
    } else if c == '-' || c == '(' {
      assert s[..|s| - 1] == p;
      assert InName(p);
    } else if IsJsSpace(c) {
      NameEndsItems(p, i, [c]);
    }
  }

  lemma StepHyphen(p: string, c: char)
    requires |p| >= 1 && p[|p| - 1] == '-' && InLetters(p[..|p| - 1])
    ensures Inv(Next(Hyphen, c), p + [c])
  {
    if IsAsciiLetter(c) {
      var p0 := p[..|p| - 1];
      var i :| 0 <= i < |p0| && Items(p0[..i]) && Letters(p0[i..]);
      var s := p + [c];
      var w := s[i..];
      var k := |p0| - i;
      assert w[..k] == p0[i..] && w[k] == '-' && w[k + 1..] == [c];
      assert HyphenName(w);
      assert s[..i] == p0[..i];
    }
  }

  lemma StepSecond(p: string, c: char)
    requires InName(p)
    ensures Inv(Next(Second, c), p + [c])
  {
    var i :| 0 <= i < |p| && Items(p[..i]) && FolderName(p[i..]);
    var s := p + [c];
    if IsAsciiLetter(c) {
      NameEndsItems(p, i, "");
      assert p + "" == p;
      AfterItemsLetter(p, c);
    } else if c == '(' {
      assert s[..|s| - 1] == p;
    } else if IsJsSpace(c) {
      NameEndsItems(p, i, [c]);
    }
  }

  lemma StepOpen(p: string, c: char)
    requires |p| >= 1 && p[|p| - 1] == '(' && InName(p[..|p| - 1])
    ensures Inv(Next(Open, c), p + [c])
  {
    if IsAsciiLetter(c) {
      var s := p + [c];
      var j := |p| - 1;
      assert s[j] == '(' && s[..j] == p[..|p| - 1] && s[j + 1..] == [c];
    }
  }

  lemma StepInner(p: string, c: char)
    requires InEnvLetters(p)
    ensures Inv(Next(Inner, c), p + [c])
  {
    var j :| 0 <= j < |p| && p[j] == '(' && InName(p[..j]) && Letters(p[j + 1..]);
    var s := p + [c];
    if IsAsciiLetter(c) {
      assert s[j] == '(' && s[..j] == p[..j] && s[j + 1..] == p[j + 1..] + [c];
      LettersSnoc(p[j + 1..], c);
    } else if c == '-' {
      assert s[..|s| - 1] == p;
    } else if c == ')' {
      CloseEnv(p, j);
    }
  }

  /** The second part of a hyphenated environment name begins. */
  lemma EnvHyphenTail(p: string, j: int, c: char)
    requires |p| >= 2 && p[|p| - 1] == '-' && IsAsciiLetter(c)
    requires 0 <= j < |p| - 1 && p[j] == '(' && InName(p[..j]) && Letters(p[j + 1..|p| - 1])
    ensures InEnvHyphenated(p + [c])
  {
    var s := p + [c];
    var w := s[j + 1..];
    var k := |p| - j - 2;
    assert w[..k] == p[j + 1..|p| - 1] && w[k] == '-' && w[k + 1..] == [c];
    assert HyphenName(w);
    assert s[j] == '(' && s[..j] == p[..j];
  }

  lemma StepInnerHyphen(p: string, c: char)
    requires |p| >= 1 && p[|p| - 1] == '-' && InEnvLetters(p[..|p| - 1])
    ensures Inv(Next(InnerHyphen, c), p + [c])
  {
    if IsAsciiLetter(c) {
      var p0 := p[..|p| - 1];
      var j :| 0 <= j < |p0| && p0[j] == '(' && InName(p0[..j]) && Letters(p0[j + 1..]);
      assert p0[..j] == p[..j] && p0[j + 1..] == p[j + 1..|p| - 1];
      EnvHyphenTail(p, j, c);
    }
  }

  /** One more letter at the end of a hyphenated environment name. */
  lemma EnvHyphenatedSnoc(p: string, j: int, c: char)
    requires 0 <= j < |p| && p[j] == '(' && InName(p[..j]) && HyphenName(p[j + 1..])
    requires IsAsciiLetter(c)
    ensures InEnvHyphenated(p + [c])
  {
    var s := p + [c];
    var w := p[j + 1..];
    var k :| 0 < k < |w| - 1 && w[k] == '-' && Letters(w[..k]) && Letters(w[k + 1..]);
    var w' := s[j + 1..];
    assert w' == w + [c];
    assert w'[..k] == w[..k] && w'[k + 1..] == w[k + 1..] + [c];
    LettersSnoc(w[k + 1..], c);
    assert HyphenName(w');
    assert s[j] == '(' && s[..j] == p[..j];
  }

  lemma StepInnerSecond(p: string, c: char)
    requires InEnvHyphenated(p)
    ensures Inv(Next(InnerSecond, c), p + [c])
  {
    var j :| 0 <= j < |p| && p[j] == '(' && InName(p[..j]) && HyphenName(p[j + 1..]);
    if IsAsciiLetter(c) {
      EnvHyphenatedSnoc(p, j, c);
    } else if c == ')' {
      CloseEnv(p, j);
    }
  }

  lemma StepDone(q: ScanState, p: string, c: char)
    requires (q.Closed? || q.Spaces?) && ItemsDone(p)
    ensures Inv(Next(q, c), p + [c])
  {
    if IsAsciiLetter(c) {
      AfterItemsLetter(p, c);
    } else if IsJsSpace(c) {
      AddBlank(p, c);
    }
  }

  /** Each transition keeps the reading of its state. */
  lemma Step(q: ScanState, p: string, c: char)
    requires Inv(q, p)
    ensures Inv(Next(q, c), p + [c])
  {
    match q
    case Start =>
      if IsAsciiLetter(c) {
        AfterItemsLetter(p, c);
      }
    case Word => StepLetters(p, c);
    case SecondOrWord => StepLetters(p, c);
    case Hyphen => StepHyphen(p, c);
    case Second => StepSecond(p, c);
    case Open => StepOpen(p, c);
    case Inner => StepInner(p, c);
    case InnerHyphen => StepInnerHyphen(p, c);
    case InnerSecond => StepInnerSecond(p, c);
    case Closed => StepDone(q, p, c);
    case Spaces => StepDone(q, p, c);
    case Dead =>
  }

  lemma {:induction false} ScanInvariant(p: string)
    ensures Inv(Scan(Start, p), p)
    decreases |p|
  {
    if |p| > 0 {
      var p0 := p[..|p| - 1];
      var c := p[|p| - 1];
      ScanInvariant(p0);
      assert p == p0 + [c];
      ScanAppend(Start, p0, [c]);
      assert Scan(Scan(Start, p0), [c]) == Next(Scan(Start, p0), c);
      Step(Scan(Start, p0), p0, c);
    }
  }

  /** In an accepting state, the text read so far is a sequence of items. */
  lemma AcceptedItems(q: ScanState, p: string)
    requires Accepting(q) && Inv(q, p)
    ensures Items(p)
  {
    if q.Word? || q.SecondOrWord? || q.Second? {
      var i :| 0 <= i < |p| && Items(p[..i]) && FolderName(p[i..]);
      NameEndsItems(p, i, "");
      assert p + "" == p;
    }
  }
}
