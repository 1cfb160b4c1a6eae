/**
 * The arrow-key select prompt (utils/SelectPrompt.js): a question and an ordered list of
 * options on the terminal; up/down move a highlighted cursor that wraps at both ends,
 * return resolves with the highlighted option's value, escape or ctrl-C rejects.
 *
 * The terminal is a `Terminal` object: the writes made to standard output, in order, and
 * the raw-mode and flowing flags of standard input. The closure state of one call of
 * `select` (the cursor index, the "menu already drawn" flag, and the promise it settles)
 * is a `Session` object. `OnKey` is the reference transition a keypress makes; the
 * handler method is proved to perform exactly that transition, and the properties of the
 * prompt are lemmas about `OnKey`.
 *
 * Styling (chalk) is modelled as absent: styled text is the plain text.
 */
module SelectPrompt {
  import opened Common
  import opened Strings
  import AnsiEraseLines

  const QUESTION_ERROR: string := "Error: Must provide a question"
  const OPTIONS_ERROR: string :=
    "Error: Must provide the options.\n" + "Options can be an array " + "of string or an array " + "of objects with value " + "and name as parameters."
  const CANCELED: string := "Operation canceled"
  const HINT: string := "(Use up and down arrows " + "to navigate)"
  /** The default pointer, as the characters of the source file (U+00E2 U+00AF). */
  const DEFAULT_POINTER: string := "\U{E2}\U{AF}"
  const HIDE_CURSOR: string := "\U{1B}[?25l"
  const SHOW_CURSOR: string := "\U{1B}[?25h"
  /** How a JavaScript object with no name of its own is shown in a template string. */
  const OBJECT_TEXT: string := "[object Object]"

  /** The key sequences the handler reacts to: return, ctrl-C, escape, up, down. */
  const ACCEPTED_SEQUENCES: seq<string> := ["\r", "\U{03}", "\U{1B}", "\U{1B}[A", "\U{1B}[B"]

  /** A keypress event as `emitKeypressEvents` reports it. A missing name is "". */
  datatype Key = Key(sequence: string, name: string, ctrl: bool)

  const DOWN_KEY: Key := Key("\U{1B}[B", "down", false)
  const UP_KEY: Key := Key("\U{1B}[A", "up", false)
  const RETURN_KEY: Key := Key("\r", "return", false)
  const ESCAPE_KEY: Key := Key("\U{1B}", "escape", false)
  const CTRL_C_KEY: Key := Key("\U{03}", "c", true)

  /** An option as the caller passes it: a bare string, or a record whose fields may be missing. */
  datatype RawOption =
    | Bare(str: string)
    | Record(name: Option<string>, value: Option<string>, description: Option<string>)

  /** A JavaScript value an option's name or value can hold: a string, or the option record itself. */
  datatype Payload = Text(s: string) | Object(record: RawOption)

  /** An option after normalisation. */
  datatype MenuOption = MenuOption(name: Payload, value: Payload, description: string)

  /** The arguments of `select`; a missing argument is `None`. */
  datatype SelectOpts = SelectOpts(question: Option<string>, options: Option<seq<RawOption>>, pointer: Option<string>)

  /** How the promise returned by `select` stands. */
  datatype Outcome = Pending | Resolved(value: Payload) | Rejected(reason: string)

  /** What a session shows and answers with; fixed once the session has started. */
  datatype Config = Config(question: string, options: seq<MenuOption>, pointer: string)

  /** All the state a keypress can change: the closure variables, the promise, the input
      flags and the writes made so far. */
  datatype State = State(index: int, firstTime: bool, outcome: Outcome, rawMode: bool, flowing: bool, writes: seq<string>)

  /** `el.name ?? el`, `el.value ?? el`, `el.description ?? ""` (a string has none of the three properties). */
  function Normalise(el: RawOption): (m: MenuOption)
    ensures el.Bare? ==> m == MenuOption(Text(el.str), Text(el.str), "")
    ensures el.Record? && el.name.Some? ==> m.name == Text(el.name.value)
    ensures el.Record? && el.name.None? ==> m.name == Object(el)
    ensures el.Record? && el.value.Some? ==> m.value == Text(el.value.value)
    ensures el.Record? && el.value.None? ==> m.value == Object(el)
    ensures el.Record? ==> m.description == el.description.GetOr("")
  {
    match el
    case Bare(s) => MenuOption(Text(s), Text(s), "")
    case Record(n, v, d) =>
      MenuOption(if n.Some? then Text(n.value) else Object(el),
                 if v.Some? then Text(v.value) else Object(el),
                 d.GetOr(""))
  }

  /** `options.map(...)`: one normalised option per given option, in the same order. */
  function NormaliseAll(options: seq<RawOption>): (r: seq<MenuOption>)
    ensures |r| == |options|
    ensures forall i :: 0 <= i < |options| ==> r[i] == Normalise(options[i])
  {
    seq(|options|, i requires 0 <= i < |options| => Normalise(options[i]))
  }

  /** The text a name shows as inside a template string. */
  function Display(p: Payload): string {
    match p
    case Text(s) => s
    case Object(_) => OBJECT_TEXT
  }

  /** The argument checks of `init`, in order: the question first, then the options. */
  function ValidationError(opts: SelectOpts): (r: Option<string>)
    ensures r == Some(QUESTION_ERROR) <==> (opts.question.None? || opts.question.value == "")
    ensures r == Some(OPTIONS_ERROR) <==>
      (opts.question.Some? && opts.question.value != "" && (opts.options.None? || opts.options.value == []))
    ensures r.None? <==>
      (opts.question.Some? && opts.question.value != "" && opts.options.Some? && opts.options.value != [])
  {
    if opts.question.None? || |opts.question.value| == 0 then Some(QUESTION_ERROR)
    else if opts.options.None? || |opts.options.value| == 0 then Some(OPTIONS_ERROR)
    else None
  }

  /** `if (!pointer) pointer = ...`: a missing or empty pointer takes the default. */
  function PointerOf(opts: SelectOpts): (p: string)
    ensures p != ""
    ensures opts.pointer.None? || opts.pointer.value == "" ==> p == DEFAULT_POINTER
    ensures opts.pointer.Some? && opts.pointer.value != "" ==> p == opts.pointer.value
  {
    if opts.pointer.None? || opts.pointer.value == "" then DEFAULT_POINTER else opts.pointer.value
  }

  /** The question line printed once when the prompt opens. */
  function Header(question: string): string {
    question + " " + HINT + "\n"
  }

  /** The line printed after a confirmation: the question and the chosen option's name. */
  function Confirmation(question: string, chosen: MenuOption): string {
    question + " " + Display(chosen.name) + "\n"
  }

  /** Menu line `i` without its line ending: one space of padding, then either the pointer,
      the name and the description (the selected line) or the name alone. */
  function MenuLine(cfg: Config, index: int, i: nat): string
    requires i < |cfg.options|
  {
    " " + (if i == index then cfg.pointer + " " + Display(cfg.options[i].name) + " " + cfg.options[i].description
           else Display(cfg.options[i].name))
  }

  function MenuLines(cfg: Config, index: int): (lines: seq<string>)
    ensures |lines| == |cfg.options|
    ensures forall i :: 0 <= i < |cfg.options| ==> lines[i] == MenuLine(cfg, index, i)
  {
    seq(|cfg.options|, i requires 0 <= i < |cfg.options| => MenuLine(cfg, index, i))
  }

  /** The writes `createOptionMenu` makes after any erase: one per option, all but the last
      ending in a newline. */
  function MenuWrites(cfg: Config, index: int): seq<string> {
    Terminated(MenuLines(cfg, index), "\n")
  }

  /** Index after "down": one further, wrapping from the last option to the first. */
  function Down(index: int, last: int): int {
    if index < last then index + 1 else 0
  }

  /** Index after "up": one back, wrapping from the first option to the last. */
  function Up(index: int, last: int): int {
    if index > 0 then index - 1 else last
  }

  /** A promise settles once: later resolutions and rejections are ignored. */
  function Settle(current: Outcome, next: Outcome): Outcome {
    if current.Pending? then next else current
  }

  predicate Accepted(key: Option<Key>) {
    key.Some? && key.value.sequence in ACCEPTED_SEQUENCES
  }

  predicate InRange(cfg: Config, st: State) {
    |cfg.options| > 0 && 0 <= st.index < |cfg.options|
  }

  /** `createOptionMenu`: erase the previous menu unless this is the first drawing, then draw. */
  function Redraw(cfg: Config, st: State): State {
    st.(firstTime := false,
        writes := st.writes + (if st.firstTime then [] else [AnsiEraseLines.EraseText(|cfg.options|)])
                  + MenuWrites(cfg, st.index))
  }

  /** `close`: erase the menu, leave raw mode, pause input, show the cursor, reject. */
  function Cancel(cfg: Config, st: State): State {
    st.(writes := st.writes + [AnsiEraseLines.EraseText(|cfg.options|), SHOW_CURSOR],
        rawMode := false, flowing := false,
        outcome := Settle(st.outcome, Rejected(CANCELED)))
  }

  /** `enter`: erase the menu and the question line, print the question with the chosen
      name, leave raw mode, pause input, show the cursor, resolve with the chosen value. */
  function Confirm(cfg: Config, st: State): State
    requires InRange(cfg, st)
  {
    st.(writes := st.writes + [AnsiEraseLines.EraseText(|cfg.options| + 1),
                               Confirmation(cfg.question, cfg.options[st.index]), SHOW_CURSOR],
        rawMode := false, flowing := false,
        outcome := Settle(st.outcome, Resolved(cfg.options[st.index].value)))
  }

  /** The reference transition of `keyPressedHandler` for one keypress event. */
  function OnKey(cfg: Config, st: State, key: Option<Key>): (r: State)
    requires InRange(cfg, st)
    ensures InRange(cfg, r)
  {
    if !Accepted(key) then st
    else
      var k := key.value;
      var last := |cfg.options| - 1;
      if k.name == "down" || k.name == "up" then
        Redraw(cfg, st.(index := if k.name == "down" then Down(st.index, last) else Up(st.index, last)))
      else
        var afterClose := if k.name == "escape" || (k.name == "c" && k.ctrl) then Cancel(cfg, st) else st;
        if k.name == "return" then Confirm(cfg, afterClose) else afterClose
  }

  /** The state right after a successful `init`: the question line, the cursor hidden, the
      menu drawn once with the first option selected, raw mode on and input flowing. */
  function Opened(cfg: Config, before: seq<string>): State {
    State(0, false, Pending, true, true, before + [Header(cfg.question), HIDE_CURSOR] + MenuWrites(cfg, 0))
  }

  /** Whether the terminal cursor is visible after these writes: the last hide or show
      write decides; with neither, it is as it was (visible). */
  function CursorVisible(writes: seq<string>): bool {
    if |writes| == 0 then true
    else if writes[|writes| - 1] == SHOW_CURSOR then true
    else if writes[|writes| - 1] == HIDE_CURSOR then false
    else CursorVisible(writes[..|writes| - 1])
  }

  /** `getPadding`'s argument: a number, or a string (whose length counts). */
  datatype PaddingArg = Number(n: int) | Str(s: string)

  /** The terminal: what was written to standard output, and the state of standard input. */
  class Terminal {
    var writes: seq<string>
    var rawMode: bool
    var flowing: bool
    var listening: bool

    constructor ()
      ensures writes == [] && !rawMode && !flowing && !listening
    {
      writes, rawMode, flowing, listening := [], false, false, false;
    }

    method Write(s: string)
      modifies this`writes
      ensures writes == old(writes) + [s]
    {
      writes := writes + [s];
    }

    method SetRawMode(on: bool)
      modifies this`rawMode
      ensures rawMode == on
    {
      rawMode := on;
    }

    method Resume()
      modifies this`flowing
      ensures flowing
    {
      flowing := true;
    }

    method Pause()
      modifies this`flowing
      ensures !flowing
    {
      flowing := false;
    }

    /** `input.on("keypress", ...)`: the handler is attached and never removed. */
    method Listen()
      modifies this`listening
      ensures listening
    {
      listening := true;
    }
  }

  method HideCursor(term: Terminal)
    modifies term`writes
    ensures term.writes == old(term.writes) + [HIDE_CURSOR]
    ensures !CursorVisible(term.writes)
  {
    term.Write(HIDE_CURSOR);
  }

  method ShowCursor(term: Terminal)
    modifies term`writes
    ensures term.writes == old(term.writes) + [SHOW_CURSOR]
    ensures CursorVisible(term.writes)
  {
    term.Write(SHOW_CURSOR);
  }

  /** `getPadding(num)`: one space, plus one per unit of `num.length`. A number has no
      `length`, and `i < undefined` is false, so a number gives a single space. */
  method GetPadding(num: PaddingArg) returns (text: string)
    ensures num.Number? ==> text == " "
    ensures num.Str? ==> |text| == |num.s| + 1
    ensures forall i :: 0 <= i < |text| ==> text[i] == ' '
  {
    text := " ";
    var length := if num.Str? then |num.s| else 0;
    var i := 0;
    while num.Str? && i < length
      invariant 0 <= i && (num.Str? ==> i <= length) && (num.Number? ==> i == 0)
      invariant |text| == i + 1
      invariant forall j :: 0 <= j < |text| ==> text[j] == ' '
    {
      text := text + " ";
      i := i + 1;
    }
  }

  /** The closure state of one `select` call. */
  class Session {
    const term: Terminal
    const question: string
    const options: seq<MenuOption>
    const pointer: string
    var selectIndex: int
    var isFirstTimeShowMenu: bool
    var outcome: Outcome

    ghost predicate Valid()
      reads this
    {
      |options| > 0 && 0 <= selectIndex < |options|
    }

    function Setup(): Config {
      Config(question, options, pointer)
    }

    function Snapshot(): State
      reads this, term
    {
      State(selectIndex, isFirstTimeShowMenu, outcome, term.rawMode, term.flowing, term.writes)
    }

    constructor (term: Terminal, question: string, options: seq<MenuOption>, pointer: string)
      requires |options| > 0
      ensures Valid()
      ensures this.term == term && this.question == question && this.options == options && this.pointer == pointer
      ensures selectIndex == 0 && isFirstTimeShowMenu && outcome == Pending
    {
      this.term := term;
      this.question := question;
      this.options := options;
      this.pointer := pointer;
      selectIndex := 0;
      isFirstTimeShowMenu := true;
      outcome := Pending;
    }

    /** The rest of `init`: the question line, raw mode, the hidden cursor, the keypress
        listener and the first drawing of the menu. */
    method Start()
      requires Valid() && selectIndex == 0 && isFirstTimeShowMenu && outcome == Pending
      modifies this`isFirstTimeShowMenu, term
      ensures Valid()
      ensures Snapshot() == Opened(Setup(), old(term.writes))
      ensures term.listening
    {
      term.Write(Header(question));
      term.SetRawMode(true);
      term.Resume();
      HideCursor(term);
      term.Listen();
      ghost var drawnBefore := State(0, true, Pending, true, true, old(term.writes) + [Header(question), HIDE_CURSOR]);
      assert Snapshot() == drawnBefore;
      if selectIndex >= 0 {
        CreateOptionMenu();
      }
      assert Snapshot() == Redraw(Setup(), drawnBefore);
    }

    /** `createOptionMenu`. */
    method CreateOptionMenu()
      requires Valid()
      modifies this`isFirstTimeShowMenu, term`writes
      ensures Valid()
      ensures Snapshot() == Redraw(Setup(), old(Snapshot()))
    {
      var optionLength := |options|;
      ghost var before := old(term.writes) + (if isFirstTimeShowMenu then [] else [AnsiEraseLines.EraseText(optionLength)]);
      if isFirstTimeShowMenu {
        isFirstTimeShowMenu := false;
      } else {
        var erase := AnsiEraseLines.EraseLines(optionLength);
        term.Write(erase);
      }
      assert term.writes == before;
      var padding := GetPadding(Number(20));
      ghost var start := term.writes;
      ghost var menu := MenuWrites(Setup(), selectIndex);
      var i := 0;
      while i < optionLength
        invariant 0 <= i <= optionLength
        invariant term.writes == start + menu[..i]
        modifies term`writes
      {
        var selectedOption :=
          if i == selectIndex then pointer + " " + Display(options[i].name) + " " + options[i].description
          else Display(options[i].name);
        var ending := if i != optionLength - 1 then "\n" else "";
        assert menu[i] == padding + selectedOption + ending;
        term.Write(padding + selectedOption + ending);
        assert menu[..i + 1] == menu[..i] + [menu[i]];
        i := i + 1;
      }
      assert menu[..optionLength] == menu;
      assert term.writes == before + menu;
    }

    /** `enter`. */
    method Enter()
      requires Valid()
      modifies this`outcome, term`writes, term`rawMode, term`flowing
      ensures Valid()
      ensures Snapshot() == Confirm(Setup(), old(Snapshot()))
    {
      var erase := AnsiEraseLines.EraseLines(|options| + 1);
      term.Write(erase);
      term.Write(question + " " + Display(options[selectIndex].name) + "\n");
      term.SetRawMode(false);
      term.Pause();
      ShowCursor(term);
      if outcome.Pending? {
        outcome := Resolved(options[selectIndex].value);
      }
    }

    /** `close`. */
    method Close()
      requires Valid()
      modifies this`outcome, term`writes, term`rawMode, term`flowing
      ensures Valid()
      ensures Snapshot() == Cancel(Setup(), old(Snapshot()))
    {
      var erase := AnsiEraseLines.EraseLines(|options|);
      term.Write(erase);
      term.SetRawMode(false);
      term.Pause();
      ShowCursor(term);
      if outcome.Pending? {
        outcome := Rejected(CANCELED);
      }
    }

    /** `keyPressedHandler`. */
    method KeyPressed(key: Option<Key>)
      requires Valid()
      modifies this`selectIndex, this`isFirstTimeShowMenu, this`outcome, term`writes, term`rawMode, term`flowing
      ensures Valid()
      ensures Snapshot() == OnKey(Setup(), old(Snapshot()), key)
    {
      if key.Some? && key.value.sequence in ACCEPTED_SEQUENCES {
        var k := key.value;
        var optionLength := |options| - 1;
        if k.name == "down" || k.name == "up" {
          if k.name == "down" {
            selectIndex := if selectIndex < optionLength then selectIndex + 1 else 0;
          }
          if k.name == "up" {
            selectIndex := if selectIndex > 0 then selectIndex - 1 else optionLength;
          }
          CreateOptionMenu();
          return;
        }
        if k.name == "escape" || (k.name == "c" && k.ctrl) {
          Close();
        }
        if k.name == "return" {
          Enter();
        }
      }
    }
  }

  /** `select(opts)` up to the first drawing of the menu (`init`). A bad argument rejects
      without touching the terminal; otherwise the session is open and the menu drawn. */
  method Select(term: Terminal, opts: SelectOpts) returns (session: Session?, rejection: Option<string>)
    modifies term
    ensures rejection == ValidationError(opts)
    ensures rejection.Some? ==> session == null && unchanged(term)
    ensures rejection.None? ==>
      && session != null && fresh(session) && session.Valid() && session.term == term
      && session.Setup() == Config(opts.question.value, NormaliseAll(opts.options.value), PointerOf(opts))
      && session.Snapshot() == Opened(session.Setup(), old(term.writes))
      && term.listening
  {
    var pointer := PointerOf(opts);
    if opts.question.None? || |opts.question.value| == 0 {
      return null, Some(QUESTION_ERROR);
    }
    if opts.options.None? || |opts.options.value| == 0 {
      return null, Some(OPTIONS_ERROR);
    }
    var question := opts.question.value;
    var mappedOptions := NormaliseAll(opts.options.value);
    session := new Session(term, question, mappedOptions, pointer);
    rejection := None;
    session.Start();
  }

  /** The state after a sequence of keypresses. */
  function Replay(cfg: Config, st: State, keys: seq<Key>): (r: State)
    requires InRange(cfg, st)
    ensures InRange(cfg, r)
    decreases |keys|
  {
    if |keys| == 0 then st else Replay(cfg, OnKey(cfg, st, Some(keys[0])), keys[1..])
  }

  /** "down" and "up" are a step forward and back modulo the number of options. */
  lemma NavigationWraps(index: int, n: int)
    requires 0 <= index < n
    ensures Down(index, n - 1) == (index + 1) % n
    ensures Up(index, n - 1) == (index + n - 1) % n
    ensures index == n - 1 ==> Down(index, n - 1) == 0
    ensures index == 0 ==> Up(index, n - 1) == n - 1
  {
    if index == n - 1 {
      assert (index + 1) % n == 0;
    } else {
      assert (index + 1) % n == index + 1;
    }
    if index == 0 {
      assert (index + n - 1) % n == n - 1;
    } else {
      assert (index + n - 1) % n == index - 1;
    }
  }

  /** `k` copies of one key. */
  function Presses(key: Key, k: nat): (keys: seq<Key>)
    ensures |keys| == k
  {
    if k == 0 then [] else [key] + Presses(key, k - 1)
  }

  /** One "down" press: the index moves to `Down`, and the outcome is untouched. */
  lemma DownPress(cfg: Config, st: State)
    requires InRange(cfg, st)
    ensures OnKey(cfg, st, Some(DOWN_KEY)).index == Down(st.index, |cfg.options| - 1)
    ensures OnKey(cfg, st, Some(DOWN_KEY)).outcome == st.outcome
  {
    assert Accepted(Some(DOWN_KEY));
  }

  lemma {:induction false} PressesAppend(key: Key, j: nat, k: nat)
    ensures Presses(key, j + k) == Presses(key, j) + Presses(key, k)
    decreases j
  {
    if j > 0 {
      PressesAppend(key, j - 1, k);
      assert Presses(key, j + k) == [key] + Presses(key, j - 1 + k);
    }
  }

  /** Replaying two key sequences one after the other is replaying their concatenation. */
  lemma {:induction false} ReplayAppend(cfg: Config, st: State, a: seq<Key>, b: seq<Key>)
    requires InRange(cfg, st)
    ensures Replay(cfg, st, a + b) == Replay(cfg, Replay(cfg, st, a), b)
    decreases |a|
  {
    if |a| == 0 {
      assert a + b == b;
    } else {
      assert (a + b)[0] == a[0] && (a + b)[1..] == a[1..] + b;
      ReplayAppend(cfg, OnKey(cfg, st, Some(a[0])), a[1..], b);
    }
  }

  /** Presses of "down" that do not pass the last option move the cursor one place each,
      and settle nothing. */
  lemma {:induction false} DownRun(cfg: Config, st: State, k: nat)
    requires InRange(cfg, st) && st.index + k < |cfg.options|
    ensures Replay(cfg, st, Presses(DOWN_KEY, k)).index == st.index + k
    ensures Replay(cfg, st, Presses(DOWN_KEY, k)).outcome == st.outcome
    decreases k
  {
    if k > 0 {
      var next := OnKey(cfg, st, Some(DOWN_KEY));
      DownPress(cfg, st);
      assert Presses(DOWN_KEY, k)[0] == DOWN_KEY && Presses(DOWN_KEY, k)[1..] == Presses(DOWN_KEY, k - 1);
      DownRun(cfg, next, k - 1);
    }
  }

  /** Pressing "down" once per option brings the cursor back to where it started, with the
      outcome unsettled by it. */
  lemma DownCycle(cfg: Config, st: State)
    requires InRange(cfg, st)
    ensures Replay(cfg, st, Presses(DOWN_KEY, |cfg.options|)).index == st.index
    ensures Replay(cfg, st, Presses(DOWN_KEY, |cfg.options|)).outcome == st.outcome
  {
    var n := |cfg.options|;
    var toLast := n - 1 - st.index;
    PressesAppend(DOWN_KEY, toLast, 1 + st.index);
    PressesAppend(DOWN_KEY, 1, st.index);
    assert Presses(DOWN_KEY, n) == Presses(DOWN_KEY, toLast) + (Presses(DOWN_KEY, 1) + Presses(DOWN_KEY, st.index));
    DownRun(cfg, st, toLast);
    var atLast := Replay(cfg, st, Presses(DOWN_KEY, toLast));
    ReplayAppend(cfg, st, Presses(DOWN_KEY, toLast), Presses(DOWN_KEY, 1) + Presses(DOWN_KEY, st.index));
    ReplayAppend(cfg, atLast, Presses(DOWN_KEY, 1), Presses(DOWN_KEY, st.index));
    DownPress(cfg, atLast);
    var atFirst := Replay(cfg, atLast, Presses(DOWN_KEY, 1));
    assert Presses(DOWN_KEY, 1) == [DOWN_KEY];
    assert atFirst == OnKey(cfg, atLast, Some(DOWN_KEY));
    DownRun(cfg, atFirst, st.index);
  }

  /** "up" from the first option selects the last one. */
  lemma UpFromFirst(cfg: Config, st: State)
    requires InRange(cfg, st) && st.index == 0
    ensures OnKey(cfg, st, Some(UP_KEY)).index == |cfg.options| - 1
  {
  }

  /** A key whose sequence is not one of the five accepted ones changes nothing and writes nothing. */
  lemma IgnoredKey(cfg: Config, st: State, key: Option<Key>)
    requires InRange(cfg, st) && !Accepted(key)
    ensures OnKey(cfg, st, key) == st
  {
  }

  /** Once the promise has settled, no keypress changes the outcome. */
  lemma SettledStays(cfg: Config, st: State, key: Option<Key>)
    requires InRange(cfg, st) && !st.outcome.Pending?
    ensures OnKey(cfg, st, key).outcome == st.outcome
  {
  }

  /** Hide and show writes alone decide the cursor's visibility: other writes leave it as it was. */
  lemma {:induction false} CursorVisibleAppend(writes: seq<string>, extra: seq<string>)
    requires forall i :: 0 <= i < |extra| ==> extra[i] != SHOW_CURSOR && extra[i] != HIDE_CURSOR
    ensures CursorVisible(writes + extra) == CursorVisible(writes)
    decreases |extra|
  {
    if |extra| == 0 {
      assert writes + extra == writes;
    } else {
      var w := writes + extra;
      assert w[|w| - 1] == extra[|extra| - 1];
      assert w[..|w| - 1] == writes + extra[..|extra| - 1];
      CursorVisibleAppend(writes, extra[..|extra| - 1]);
    }
  }

  /** Every menu write starts with the padding space, so none is a cursor control. */
  lemma MenuWritesNotCursor(cfg: Config, index: int)
    ensures forall i :: 0 <= i < |MenuWrites(cfg, index)| ==>
      MenuWrites(cfg, index)[i][0] == ' '
      && MenuWrites(cfg, index)[i] != SHOW_CURSOR && MenuWrites(cfg, index)[i] != HIDE_CURSOR
  {
    var m := MenuWrites(cfg, index);
    forall i | 0 <= i < |m|
      ensures m[i][0] == ' ' && m[i] != SHOW_CURSOR && m[i] != HIDE_CURSOR
    {
      assert m[i] == MenuLine(cfg, index, i) + (if i < |m| - 1 then "\n" else "");
      assert SHOW_CURSOR[0] != ' ' && HIDE_CURSOR[0] != ' ';
    }
  }

  /** An erase of at least one line is not a cursor control (it is longer). */
  lemma EraseNotCursor(count: int)
    requires count >= 1
    ensures AnsiEraseLines.EraseText(count) != SHOW_CURSOR && AnsiEraseLines.EraseText(count) != HIDE_CURSOR
  {
    AnsiEraseLines.EraseTextShape(count);
  }

  /** After opening, the cursor is hidden. */
  lemma OpenedHidesCursor(cfg: Config, before: seq<string>)
    ensures !CursorVisible(Opened(cfg, before).writes)
  {
    MenuWritesNotCursor(cfg, 0);
    CursorVisibleAppend(before + [Header(cfg.question), HIDE_CURSOR], MenuWrites(cfg, 0));
  }

  /** A navigation key sets the index and redraws, nothing more. */
  lemma NavigationStep(cfg: Config, st: State, key: Key)
    requires InRange(cfg, st) && (key == DOWN_KEY || key == UP_KEY)
    ensures OnKey(cfg, st, Some(key))
      == Redraw(cfg, st.(index := if key == DOWN_KEY then Down(st.index, |cfg.options| - 1) else Up(st.index, |cfg.options| - 1)))
  {
    assert Accepted(Some(key));
  }

  /** "down"/"up": the new index is the wrapped neighbour; the menu is redrawn, preceded by
      an erase of exactly one line per option unless this is the first drawing; nothing
      else changes, and a hidden cursor stays hidden. */
  lemma Navigation(cfg: Config, st: State, key: Key)
    requires InRange(cfg, st) && (key == DOWN_KEY || key == UP_KEY)
    ensures var r := OnKey(cfg, st, Some(key));
      var n := |cfg.options|;
      && r.index == (if key == DOWN_KEY then Down(st.index, n - 1) else Up(st.index, n - 1))
      && !r.firstTime
      && r.writes == st.writes + (if st.firstTime then [] else [AnsiEraseLines.EraseText(n)]) + MenuWrites(cfg, r.index)
      && r.outcome == st.outcome && r.rawMode == st.rawMode && r.flowing == st.flowing
      && (!CursorVisible(st.writes) ==> !CursorVisible(r.writes))
  {
    var n := |cfg.options|;
    NavigationStep(cfg, st, key);
    var index := if key == DOWN_KEY then Down(st.index, n - 1) else Up(st.index, n - 1);
    RedrawKeepsCursor(cfg, st.writes, st.firstTime, index);
  }

  /** A redraw (an optional erase, then the menu) leaves the cursor's visibility as it was. */
  lemma RedrawKeepsCursor(cfg: Config, writes: seq<string>, firstTime: bool, index: int)
    requires |cfg.options| >= 1
    ensures var erase: seq<string> := if firstTime then [] else [AnsiEraseLines.EraseText(|cfg.options|)];
      CursorVisible(writes + erase + MenuWrites(cfg, index)) == CursorVisible(writes)
  {
    var menu := MenuWrites(cfg, index);
    MenuWritesNotCursor(cfg, index);
    if firstTime {
      assert writes + [] == writes;
      CursorVisibleAppend(writes, menu);
    } else {
      var erase := AnsiEraseLines.EraseText(|cfg.options|);
      EraseNotCursor(|cfg.options|);
      CursorVisibleAppend(writes, [erase]);
      CursorVisibleAppend(writes + [erase], menu);
    }
  }

  /** Return: the menu and the question line are erased, the question is printed with the
      chosen option's name, raw mode is left, input paused, the cursor shown, and a pending
      promise resolves with the chosen option's value (not its name or index). */
  lemma ReturnResolves(cfg: Config, st: State)
    requires InRange(cfg, st) && st.outcome.Pending?
    ensures var r := OnKey(cfg, st, Some(RETURN_KEY));
      && r.outcome == Resolved(cfg.options[st.index].value)
      && r.writes == st.writes + [AnsiEraseLines.EraseText(|cfg.options| + 1),
                                  cfg.question + " " + Display(cfg.options[st.index].name) + "\n", SHOW_CURSOR]
      && !r.rawMode && !r.flowing && r.index == st.index
      && CursorVisible(r.writes)
  {
  }

  /** Escape or ctrl-C: the menu is erased, raw mode is left, input paused, the cursor shown,
      and a pending promise is rejected with the cancellation message. */
  lemma CancelRejects(cfg: Config, st: State, key: Key)
    requires InRange(cfg, st) && st.outcome.Pending? && (key == ESCAPE_KEY || key == CTRL_C_KEY)
    ensures var r := OnKey(cfg, st, Some(key));
      && r.outcome == Rejected(CANCELED)
      && r.writes == st.writes + [AnsiEraseLines.EraseText(|cfg.options|), SHOW_CURSOR]
      && !r.rawMode && !r.flowing && r.index == st.index
      && CursorVisible(r.writes)
  {
  }

  /** With no line break in the pointer, names or descriptions, the menu occupies exactly one
      line per option: the erase of `|options|` lines on the next drawing removes it all. */
  lemma MenuLineCount(cfg: Config, index: int)
    requires '\n' !in cfg.pointer
    requires forall i :: 0 <= i < |cfg.options| ==>
      '\n' !in Display(cfg.options[i].name) && '\n' !in cfg.options[i].description
    requires |cfg.options| > 0
    ensures Split(Concat(MenuWrites(cfg, index)), '\n') == MenuLines(cfg, index)
    ensures |Split(Concat(MenuWrites(cfg, index)), '\n')| == |cfg.options|
  {
    var lines := MenuLines(cfg, index);
    ConcatTerminated(lines, "\n");
    forall i | 0 <= i < |lines| ensures '\n' !in lines[i] {
      assert lines[i] == MenuLine(cfg, index, i);
    }
    SplitJoin(lines, '\n');
  }

  /** Options ["Vite" -> "vite", "None" -> "none"]: "down" selects "None", return resolves "none". */
  lemma ScenarioDownThenReturn()
    ensures var cfg := Config("Pick one",
        NormaliseAll([Record(Some("Vite"), Some("vite"), None), Record(Some("None"), Some("none"), None)]),
        DEFAULT_POINTER);
      var s0 := Opened(cfg, []);
      var s1 := OnKey(cfg, s0, Some(DOWN_KEY));
      var s2 := OnKey(cfg, s1, Some(RETURN_KEY));
      s0.index == 0 && s1.index == 1 && s2.outcome == Resolved(Text("none"))
  {
  }

  /** Bare options ["yes", "no", "maybe"]: "up" from the first selects "maybe", return resolves "maybe". */
  lemma ScenarioUpThenReturn()
    ensures var cfg := Config("Pick one", NormaliseAll([Bare("yes"), Bare("no"), Bare("maybe")]), DEFAULT_POINTER);
      var s1 := OnKey(cfg, Opened(cfg, []), Some(UP_KEY));
      var s2 := OnKey(cfg, s1, Some(RETURN_KEY));
      s1.index == 2 && s2.outcome == Resolved(Text("maybe"))
  {
  }

  /** Escape right after opening rejects with the cancellation message. */
  lemma ScenarioEscape(cfg: Config)
    requires |cfg.options| > 0
    ensures OnKey(cfg, Opened(cfg, []), Some(ESCAPE_KEY)).outcome == Rejected(CANCELED)
  {
  }
}
