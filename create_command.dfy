/**
 * The `create [name]` command: ask for what is missing, validate the project name, check
 * the parent path, create the project folder and `npm init` it, read the space-separated
 * subfolder specification (`client(vite) backoffice(vite) server`), scaffold each
 * subfolder in order (a vite app, or a plain Node app), install and configure Biome, and
 * put one run script per subfolder into the parent `package.json`.
 *
 * `Create` is the command as the source runs it, step after step on a `Shell`, with the
 * per-subfolder `for` loop in `CreateFolders`; `CreatePlan` is the trace it produces, as a
 * function of the inputs and the world, about which the lemmas below are stated.
 */
module CreateCommand {
  import opened Common
  import opened Strings
  import opened Plans

  /** The command-line arguments, the answers the prompts would get, and the folder the
      tool is installed in (where its file templates live). */
  datatype CreateInput = CreateInput(
    name: Option<string>, pathOption: Arg,
    nameAnswer: string, pathAnswer: string, foldersAnswer: string,
    appDir: string)

  const NAME_QUESTION: string := "❔ What is the name " + "of the project?\n"
  const FOLDERS_QUESTION: string :=
    "❔ Which subfolders should " + "this project have? " + "(ex: client(vite) " + "backoffice(vite) server) " + "(separate by space)\n"
  const INVALID_FOLDERS: string :=
    "Invalid subfolders format.\n"
    + "Subfolder names must not " + "contain special characters " + "or numbers.\n"
    + "All subfolders must be " + "separated by a space and " + "can be followed by and " + "development environment " + "inside parenthesis. "

  function PathQuestion(name: string): string {
    "❔ Where do you want " + "to create the project " + name + "? (leave empty " + "for current path)\n"
  }

  // ---------------------------------------------------------------------------------
  // The subfolder specification `/^([a-zA-Z]+(?:-[a-zA-Z]+)?(\([a-zA-Z]+(?:-[a-zA-Z]+)?\))?\s*)*$/`
  // as a deterministic automaton. A word is letters with at most one inner hyphen; an
  // item is a word, optionally a parenthesised word, then any whitespace (possibly none,
  // so items may also follow each other directly).
  // ---------------------------------------------------------------------------------

  datatype ScanState =
    | Start          // nothing read, or at the very beginning
    | Word           // in the first letter run of a word
    | Hyphen         // just read the hyphen of a word
    | Second         // first letter after the hyphen
    | SecondOrWord   // later letters after the hyphen (a new item may have started)
    | Open           // just read "("
    | Inner          // in the first letter run inside the parentheses
    | InnerHyphen    // just read the hyphen inside the parentheses
    | InnerSecond    // letters after that hyphen
    | Closed         // just read ")"
    | Spaces         // whitespace after an item
    | Dead           // no match is possible any more

  predicate Accepting(q: ScanState) {
    q.Start? || q.Word? || q.Second? || q.SecondOrWord? || q.Closed? || q.Spaces?
  }

  function Next(q: ScanState, c: char): ScanState {
    match q
    case Start => if IsAsciiLetter(c) then Word else Dead
    case Word =>
      if IsAsciiLetter(c) then Word else if c == '-' then Hyphen else if c == '(' then Open
      else if IsJsSpace(c) then Spaces else Dead
    case Hyphen => if IsAsciiLetter(c) then Second else Dead
    case Second =>
      if IsAsciiLetter(c) then SecondOrWord else if c == '(' then Open
      else if IsJsSpace(c) then Spaces else Dead
    case SecondOrWord =>
      if IsAsciiLetter(c) then SecondOrWord else if c == '-' then Hyphen else if c == '(' then Open
      else if IsJsSpace(c) then Spaces else Dead
    case Open => if IsAsciiLetter(c) then Inner else Dead
    case Inner =>
      if IsAsciiLetter(c) then Inner else if c == '-' then InnerHyphen else if c == ')' then Closed else Dead
    case InnerHyphen => if IsAsciiLetter(c) then InnerSecond else Dead
    case InnerSecond => if IsAsciiLetter(c) then InnerSecond else if c == ')' then Closed else Dead
    case Closed => if IsAsciiLetter(c) then Word else if IsJsSpace(c) then Spaces else Dead
    case Spaces => if IsAsciiLetter(c) then Word else if IsJsSpace(c) then Spaces else Dead
    case Dead => Dead
  }

  function Scan(q: ScanState, s: string): ScanState
    decreases |s|
  {
    if |s| == 0 then q else Scan(Next(q, s[0]), s[1..])
  }

  /** The regular expression's `test` on the answer. */
  predicate ValidFolders(s: string) {
    Accepting(Scan(Start, s))
  }

  predicate IsFolderChar(c: char) {
    IsAsciiLetter(c) || c == '-' || c == '(' || c == ')' || IsJsSpace(c)
  }

  lemma {:induction false} ScanDead(s: string)
    ensures Scan(Dead, s) == Dead
    decreases |s|
  {
    if |s| > 0 {
      ScanDead(s[1..]);
    }
  }

  /** A character outside letters, "-", "(", ")" and whitespace makes the scan fail. */
  lemma {:induction false} ScanRejects(q: ScanState, s: string, i: nat)
    requires i < |s| && !IsFolderChar(s[i])
    ensures Scan(q, s) == Dead
    decreases |s|
  {
    if i == 0 {
      assert Next(q, s[0]) == Dead;
      ScanDead(s[1..]);
    } else {
      assert s[1..][i - 1] == s[i];
      ScanRejects(Next(q, s[0]), s[1..], i - 1);
    }
  }

  /** An accepted specification is made only of letters, "-", "(", ")" and whitespace: in
      particular no "$", so the run scripts built from it need no `$` escaping. */
  lemma ValidFoldersAlphabet(s: string)
    requires ValidFolders(s)
    ensures forall i :: 0 <= i < |s| ==> IsFolderChar(s[i])
    ensures '$' !in s
  {
    forall i | 0 <= i < |s| ensures IsFolderChar(s[i]) {
      if !IsFolderChar(s[i]) {
        ScanRejects(Start, s, i);
      }
    }
  }

  /** A folder with an environment followed by a plain one is accepted, and so is an
      empty answer. */
  lemma ValidFoldersAccepts()
    ensures ValidFolders("a(vite) b")
    ensures ValidFolders("")
  {
  }

  /** A leading space, a digit or an unclosed parenthesis is rejected. */
  lemma ValidFoldersRejects()
    ensures !ValidFolders(" a")
    ensures !ValidFolders("a2")
    ensures !ValidFolders("a(b")
  {
  }

  // ---------------------------------------------------------------------------------
  // The subfolder records.
  // ---------------------------------------------------------------------------------

  datatype App = App(folder: string, devEnv: Option<string>, path: string, port: nat)

  /** `app.devEnv` is truthy. */
  predicate HasDevEnv(app: App) {
    app.devEnv.Some? && app.devEnv.value != ""
  }

  /** The record of the token at `index`: the folder is the text before the first "(",
      the development environment the text after it up to the next "(" with its first ")"
      removed, the path is under the project folder `root`, and ports count up from 3000. */
  function MapToken(token: string, index: nat, root: string): (app: App)
    ensures '(' !in app.folder
    ensures app.path == root + "/" + app.folder
    ensures app.port == 3000 + index
  {
    var parts := Split(token, '(');
    SplitPartsFree(token, '(');
    App(parts[0],
        if |parts| >= 2 then Some(ReplaceFirst(parts[1], LiteralPattern(")"), "")) else None,
        root + "/" + parts[0],
        3000 + index)
  }

  function MapFolders(tokens: seq<string>, root: string): (apps: seq<App>)
    ensures |apps| == |tokens|
    ensures forall i :: 0 <= i < |tokens| ==> apps[i] == MapToken(tokens[i], i, root)
  {
    seq(|tokens|, i requires 0 <= i < |tokens| => MapToken(tokens[i], i, root))
  }

  /** A bare word is a folder without a development environment. */
  lemma MapBareToken(folder: string, index: nat, root: string)
    requires '(' !in folder
    ensures MapToken(folder, index, root) == App(folder, None, root + "/" + folder, 3000 + index)
  {
    SplitNoSeparator(folder, '(');
  }

  /** `folder(env)` splits on "(" into the folder and `env)`. */
  lemma SplitEnvToken(folder: string, env: string)
    requires '(' !in folder && '(' !in env
    ensures Split(folder + "(" + env + ")", '(') == [folder, env + ")"]
  {
    var closed := env + ")";
    assert folder + "(" + env + ")" == folder + ['('] + closed;
    SplitAppend(folder, '(', closed);
    SplitNoSeparator(folder, '(');
    assert '(' !in closed by {
      forall k | 0 <= k < |closed| ensures closed[k] != '(' {
        if k < |env| { assert closed[k] == env[k]; }
      }
    }
    SplitNoSeparator(closed, '(');
  }

  /** Removing the first ")" of `env)` gives back `env`. */
  lemma DropCloseParen(env: string)
    requires ')' !in env
    ensures ReplaceFirst(env + ")", LiteralPattern(")"), "") == env
  {
    var closed := env + ")";
    var p := LiteralPattern(")");
    assert MatchesAt(closed, |env|, p);
    forall j: nat | j < |env| ensures !MatchesAt(closed, j, p) {
      assert closed[j] == env[j];
    }
    ReplaceFirstSpec(closed, p, "");
    assert closed[..|env|] == env;
  }

  /** `folder(env)` is the folder `folder` with development environment `env`. */
  lemma MapEnvToken(folder: string, env: string, index: nat, root: string)
    requires '(' !in folder && '(' !in env && ')' !in env
    ensures MapToken(folder + "(" + env + ")", index, root)
      == App(folder, Some(env), root + "/" + folder, 3000 + index)
  {
    SplitEnvToken(folder, env);
    DropCloseParen(env);
  }

  /** Ports follow the token order: distinct and strictly increasing, one apart. */
  lemma PortsIncreasing(tokens: seq<string>, root: string)
    ensures var apps := MapFolders(tokens, root);
      forall i, j :: 0 <= i < j < |apps| ==> apps[i].port < apps[j].port && apps[j].port - apps[i].port == j - i
  {
  }

  /** A trailing space (or two spaces in a row) makes an empty token, hence a subfolder
      with an empty name whose path is the project folder itself followed by "/". */
  lemma TrailingSpaceEmptyFolder(s: string, root: string)
    ensures var tokens := Split(s + " ", ' ');
      |tokens| >= 2 && MapToken(tokens[|tokens| - 1], |tokens| - 1, root).folder == ""
      && MapToken(tokens[|tokens| - 1], |tokens| - 1, root).path == root + "/"
  {
    assert s + " " == s + [' '] + "";
    SplitAppend(s, ' ', "");
    MapBareToken("", |Split(s + " ", ' ')| - 1, root);
  }

  // ---------------------------------------------------------------------------------
  // Parent package.json scripts.
  // ---------------------------------------------------------------------------------

  const LINT_SCRIPT: string := "\"lint\": " + "\"npx @biomejs/biome lint .\","
  const FORMAT_SCRIPT: string := "\"format\": " + "\"npx @biomejs/biome " + "format . --write\","
  const CHECK_SCRIPT: string := "\"check\": " + "\"npx @biomejs/biome check .\""

  function RunScript(app: App): string {
    "\"" + app.folder + "\": \"cd " + app.folder + " && "
    + (if HasDevEnv(app) then "npm run dev" else "node index.js") + "\","
  }

  function ParentScriptLines(apps: seq<App>): seq<string> {
    seq(|apps|, i requires 0 <= i < |apps| => RunScript(apps[i])) + [LINT_SCRIPT, FORMAT_SCRIPT, CHECK_SCRIPT]
  }

  /** One run script per subfolder in order — `npm run dev` for a vite app, `node index.js`
      otherwise — then the lint, format and check scripts. */
  lemma ParentScriptsOrder(apps: seq<App>)
    ensures var lines := ParentScriptLines(apps);
      && |lines| == |apps| + 3
      && (forall i :: 0 <= i < |apps| && HasDevEnv(apps[i]) ==>
            lines[i] == "\"" + apps[i].folder + "\": \"cd " + apps[i].folder + " && npm run dev\",")
      && (forall i :: 0 <= i < |apps| && !HasDevEnv(apps[i]) ==>
            lines[i] == "\"" + apps[i].folder + "\": \"cd " + apps[i].folder + " && node index.js\",")
      && lines[|apps|..] == [LINT_SCRIPT, FORMAT_SCRIPT, CHECK_SCRIPT]
  {
  }

  // ---------------------------------------------------------------------------------
  // The trace, phase by phase.
  // ---------------------------------------------------------------------------------

  predicate AsksName(input: CreateInput) {
    input.name.None? || input.name.value == ""
  }

  /** The project name before normalisation: the argument when truthy, else the answer. */
  function RawName(input: CreateInput): string {
    if AsksName(input) then input.nameAnswer else input.name.value
  }

  function AskedName(input: CreateInput): seq<Step> {
    if AsksName(input) then [Ask(NAME_QUESTION)] else []
  }

  /** The whole trace of `create`. */
  function CreatePlan(input: CreateInput, world: World): seq<Step> {
    AskedName(input) + NamedPlan(input, NormaliseName(RawName(input)), world)
  }

  /** From the normalised name on: reject it, or settle the path. */
  function NamedPlan(input: CreateInput, name: string, world: World): seq<Step> {
    if !ValidName(name) then ErrorSteps(INVALID_NAME, "")
    else AskedPath(input, name) + LocatedPlan(input, name, world)
  }

  function AskedPath(input: CreateInput, name: string): seq<Step> {
    if Truthy(input.pathOption) then [] else [Ask(PathQuestion(name))]
  }

  /** The project path: the option when truthy, otherwise the answer with its default. */
  function ChosenPath(input: CreateInput): Arg {
    if Truthy(input.pathOption) then input.pathOption else Given(DefaultPath(input.pathAnswer))
  }

  function LocatedPlan(input: CreateInput, name: string, world: World): seq<Step> {
    var path := ChosenPath(input);
    if !PathExists(world, path) then ErrorSteps(PathMissing(ArgText(path)), "")
    else ProjectPlan(input, path.text + name, name, world)
  }

  function SetupSteps(root: string): seq<Step> {
    [CreateDirectory(root), RunCommand(root, "npm init -y")]
  }

  function WillCreate(name: string, root: string): string {
    "✅ Project " + name + " will be create on " + root + "."
  }

  /** From the project folder `root` on: create it and `npm init` it, then the subfolders. */
  function ProjectPlan(input: CreateInput, root: string, name: string, world: World): seq<Step> {
    var setup := Block(SetupSteps(root), world, "");
    var asked := [Log(WillCreate(name, root)), Ask(FOLDERS_QUESTION)];
    if setup.ended then setup.steps
    else setup.steps + (asked + SubfoldersPlan(input.foldersAnswer, root, name, input.appDir, world))
  }

  function SubfoldersPlan(answer: string, root: string, name: string, appDir: string, world: World): seq<Step> {
    if !ValidFolders(answer) then ErrorSteps(INVALID_FOLDERS, root)
    else AppsPlan(MapFolders(Split(answer, ' '), root), root, name, appDir, world)
  }

  /** The steps for one subfolder: a plain app without development environment, a vite
      app for "vite", and `handleError` removing the project for anything else. */
  function FolderRun(app: App, root: string, appDir: string, world: World): Run {
    if !HasDevEnv(app) then Block(PlainSteps(app.path, app.folder), world, root)
    else if app.devEnv.value != "vite" then Run(ErrorSteps(Unsupported(app.devEnv.value), root), true)
    else Block(ViteSteps(root, app.folder, "react", app.path, app.port, appDir), world, root)
  }

  /** The `for` loop over the subfolders, in order, up to the first that ends the process. */
  function FoldersRun(apps: seq<App>, root: string, appDir: string, world: World): Run
    decreases |apps|
  {
    if |apps| == 0 then Run([], false)
    else Then(FoldersRun(apps[..|apps| - 1], root, appDir, world), FolderRun(apps[|apps| - 1], root, appDir, world))
  }

  function AppsPlan(apps: seq<App>, root: string, name: string, appDir: string, world: World): seq<Step> {
    var folders := FoldersRun(apps, root, appDir, world);
    if folders.ended then folders.steps else folders.steps + FinishPlan(apps, root, name, appDir, world)
  }

  function BiomeSteps(root: string, name: string, appDir: string): seq<Step> {
    [ RunCommand(root, "npm install --save-dev " + "--save-exact @biomejs/biome"),
      CopyFile(appDir + "/filesTemplate/biome.json", root + "/biome.json"),
      CopyFile(appDir + "/filesTemplate/.gitignore", root + "/.gitignore"),
      WriteFile(root + "/README.md", "#" + name),
      RunCommand(root, "npx @biomejs/biome " + "migrate --write") ]
  }

  /** After the subfolders: Biome, then the parent scripts. */
  function FinishPlan(apps: seq<App>, root: string, name: string, appDir: string, world: World): seq<Step> {
    var biome := Block(BiomeSteps(root, name, appDir), world, root);
    if biome.ended then biome.steps else biome.steps + ScriptsPlan(apps, root, name, world)
  }

  function ScriptsEdit(apps: seq<App>, root: string): seq<Step> {
    [EditFile(root + "/package.json", ParentScripts(ParentScriptLines(apps)))]
  }

  /** The parent scripts, the success line and `rl.close()`. */
  function ScriptsPlan(apps: seq<App>, root: string, name: string, world: World): seq<Step> {
    var edit := Block(ScriptsEdit(apps, root), world, root);
    if edit.ended then edit.steps else edit.steps + [Log("\r✅ " + name + " project created"), Exit]
  }

  // ---------------------------------------------------------------------------------
  // The command, step by step.
  // ---------------------------------------------------------------------------------

  method Create(shell: Shell, input: CreateInput)
    requires !shell.exited
    modifies shell
    ensures shell.trace == old(shell.trace) + CreatePlan(input, shell.world)
    ensures shell.exited
  {
    var before := shell.trace;
    var projectName: string;
    if input.name.None? || input.name.value == "" {
      var _ := shell.Perform(Ask(NAME_QUESTION));
      projectName := input.nameAnswer;
    } else {
      projectName := input.name.value;
    }
    assert shell.trace == before + AskedName(input);
    projectName := NormaliseName(projectName);
    CreateNamed(shell, input, projectName);
    AppendAssoc(before, AskedName(input), NamedPlan(input, projectName, shell.world));
  }

  method CreateNamed(shell: Shell, input: CreateInput, name: string)
    requires !shell.exited
    modifies shell
    ensures shell.trace == old(shell.trace) + NamedPlan(input, name, shell.world)
    ensures shell.exited
  {
    if !ValidName(name) {
      shell.HandleError(INVALID_NAME, "");
      return;
    }
    var before := shell.trace;
    var projectPath := input.pathOption;
    if !Truthy(projectPath) {
      var _ := shell.Perform(Ask(PathQuestion(name)));
      projectPath := Given(DefaultPath(input.pathAnswer));
    }
    assert shell.trace == before + AskedPath(input, name);
    var mid := shell.trace;
    if !PathExists(shell.world, projectPath) {
      shell.HandleError(PathMissing(ArgText(projectPath)), "");
    } else {
      CreateProject(shell, input, projectPath.text + name, name);
    }
    assert shell.trace == mid + LocatedPlan(input, name, shell.world);
    AppendAssoc(before, AskedPath(input, name), LocatedPlan(input, name, shell.world));
  }

  method CreateProject(shell: Shell, input: CreateInput, root: string, name: string)
    requires !shell.exited
    modifies shell
    ensures shell.trace == old(shell.trace) + ProjectPlan(input, root, name, shell.world)
    ensures shell.exited
  {
    var before := shell.trace;
    var ended := shell.RunBlock(SetupSteps(root), "");
    if ended {
      return;
    }
    var mid := shell.trace;
    var _ := shell.Perform(Log(WillCreate(name, root)));
    var _ := shell.Perform(Ask(FOLDERS_QUESTION));
    var asked := [Log(WillCreate(name, root)), Ask(FOLDERS_QUESTION)];
    assert shell.trace == mid + asked;
    var mid2 := shell.trace;
    CreateSubfolders(shell, input.foldersAnswer, root, name, input.appDir);
    var rest := SubfoldersPlan(input.foldersAnswer, root, name, input.appDir, shell.world);
    AppendAssoc(mid, asked, rest);
    AppendAssoc(before, Block(SetupSteps(root), shell.world, "").steps, asked + rest);
  }

  method CreateSubfolders(shell: Shell, answer: string, root: string, name: string, appDir: string)
    requires !shell.exited
    modifies shell
    ensures shell.trace == old(shell.trace) + SubfoldersPlan(answer, root, name, appDir, shell.world)
    ensures shell.exited
  {
    if !ValidFolders(answer) {
      shell.HandleError(INVALID_FOLDERS, root);
      return;
    }
    var before := shell.trace;
    var apps := MapFolders(Split(answer, ' '), root);
    var ended := CreateFolders(shell, apps, root, appDir);
    if ended {
      return;
    }
    var mid := shell.trace;
    CreateFinish(shell, apps, root, name, appDir);
    AppendAssoc(before, FoldersRun(apps, root, appDir, shell.world).steps, FinishPlan(apps, root, name, appDir, shell.world));
  }

  /** The `for` loop over the subfolder records. */
  method CreateFolders(shell: Shell, apps: seq<App>, root: string, appDir: string) returns (ended: bool)
    requires !shell.exited
    modifies shell
    ensures shell.trace == old(shell.trace) + FoldersRun(apps, root, appDir, shell.world).steps
    ensures ended == shell.exited == FoldersRun(apps, root, appDir, shell.world).ended
  {
    var before := shell.trace;
    var i := 0;
    while i < |apps|
      invariant 0 <= i <= |apps|
      invariant !shell.exited && !FoldersRun(apps[..i], root, appDir, shell.world).ended
      invariant shell.trace == before + FoldersRun(apps[..i], root, appDir, shell.world).steps
    {
      var mid := shell.trace;
      ended := CreateFolder(shell, apps[i], root, appDir);
      FoldersRunSnoc(apps, i, root, appDir, shell.world);
      AppendAssoc(before, FoldersRun(apps[..i], root, appDir, shell.world).steps,
        FolderRun(apps[i], root, appDir, shell.world).steps);
      if ended {
        FoldersRunStops(apps, i + 1, root, appDir, shell.world);
        return true;
      }
      i := i + 1;
    }
    assert apps[..i] == apps;
    return false;
  }

  /** One iteration: the steps for one subfolder. */
  method CreateFolder(shell: Shell, app: App, root: string, appDir: string) returns (ended: bool)
    requires !shell.exited
    modifies shell
    ensures shell.trace == old(shell.trace) + FolderRun(app, root, appDir, shell.world).steps
    ensures ended == shell.exited == FolderRun(app, root, appDir, shell.world).ended
  {
    if app.devEnv.Some? && app.devEnv.value != "" {
      if app.devEnv.value != "vite" {
        shell.HandleError(Unsupported(app.devEnv.value), root);
        return true;
      }
      ended := shell.RunBlock(ViteSteps(root, app.folder, "react", app.path, app.port, appDir), root);
    } else {
      ended := shell.RunBlock(PlainSteps(app.path, app.folder), root);
    }
  }

  /** Biome, the parent scripts, and the end of the command. */
  method CreateFinish(shell: Shell, apps: seq<App>, root: string, name: string, appDir: string)
    requires !shell.exited
    modifies shell
    ensures shell.trace == old(shell.trace) + FinishPlan(apps, root, name, appDir, shell.world)
    ensures shell.exited
  {
    var before := shell.trace;
    var ended := shell.RunBlock(BiomeSteps(root, name, appDir), root);
    if ended {
      return;
    }
    var mid := shell.trace;
    ended := shell.RunBlock(ScriptsEdit(apps, root), root);
    if !ended {
      var _ := shell.Perform(Log("\r✅ " + name + " project created"));
      shell.Close();
      AppendAssoc(mid, Block(ScriptsEdit(apps, root), shell.world, root).steps,
        [Log("\r✅ " + name + " project created"), Exit]);
    }
    AppendAssoc(before, Block(BiomeSteps(root, name, appDir), shell.world, root).steps,
      ScriptsPlan(apps, root, name, shell.world));
  }

  // ---------------------------------------------------------------------------------
  // Properties of the trace.
  // ---------------------------------------------------------------------------------

  lemma FoldersRunSnoc(apps: seq<App>, i: nat, root: string, appDir: string, world: World)
    requires i < |apps|
    ensures FoldersRun(apps[..i + 1], root, appDir, world)
      == Then(FoldersRun(apps[..i], root, appDir, world), FolderRun(apps[i], root, appDir, world))
  {
    assert apps[..i + 1][..i] == apps[..i];
  }

  /** Once a subfolder ends the process, the later subfolders are never touched. */
  lemma {:induction false} FoldersRunStops(apps: seq<App>, k: nat, root: string, appDir: string, world: World)
    requires k <= |apps| && FoldersRun(apps[..k], root, appDir, world).ended
    ensures FoldersRun(apps, root, appDir, world) == FoldersRun(apps[..k], root, appDir, world)
    decreases |apps|
  {
    if k < |apps| {
      var init := apps[..|apps| - 1];
      assert init[..k] == apps[..k];
      FoldersRunStops(init, k, root, appDir, world);
    } else {
      assert apps[..k] == apps;
    }
  }

  /** A run that ended the process is a finished trace; one that did not holds no `Exit`. */
  predicate Settled(r: Run) {
    if r.ended then Finished(r.steps) else NoExit(r.steps)
  }

  /** A settled run followed, unless it ended, by a finished tail, is finished. */
  lemma FinishedSeq(r: Run, tail: seq<Step>)
    requires Settled(r) && Finished(tail)
    ensures Finished(if r.ended then r.steps else r.steps + tail)
  {
    if !r.ended {
      FinishedAfter(r.steps, tail);
    }
  }

  lemma BlockSettled(steps: seq<Step>, world: World, cleanup: string)
    requires NoExit(steps)
    ensures Settled(Block(steps, world, cleanup))
  {
    BlockFinished(steps, world, cleanup);
  }

  lemma FolderRunSettled(app: App, root: string, appDir: string, world: World)
    ensures Settled(FolderRun(app, root, appDir, world))
  {
    if !HasDevEnv(app) {
      BlockSettled(PlainSteps(app.path, app.folder), world, root);
    } else if app.devEnv.value != "vite" {
      ErrorStepsFinished(Unsupported(app.devEnv.value), root);
    } else {
      BlockSettled(ViteSteps(root, app.folder, "react", app.path, app.port, appDir), world, root);
    }
  }

  lemma {:induction false} FoldersRunSettled(apps: seq<App>, root: string, appDir: string, world: World)
    ensures Settled(FoldersRun(apps, root, appDir, world))
    decreases |apps|
  {
    if |apps| > 0 {
      var a := FoldersRun(apps[..|apps| - 1], root, appDir, world);
      var b := FolderRun(apps[|apps| - 1], root, appDir, world);
      FoldersRunSettled(apps[..|apps| - 1], root, appDir, world);
      FolderRunSettled(apps[|apps| - 1], root, appDir, world);
      if !a.ended && b.ended {
        FinishedAfter(a.steps, b.steps);
      }
    }
  }

  lemma SubfoldersPlanFinished(answer: string, root: string, name: string, appDir: string, world: World)
    ensures Finished(SubfoldersPlan(answer, root, name, appDir, world))
  {
    if !ValidFolders(answer) {
      ErrorStepsFinished(INVALID_FOLDERS, root);
    } else {
      var apps := MapFolders(Split(answer, ' '), root);
      var edit := Block(ScriptsEdit(apps, root), world, root);
      BlockSettled(ScriptsEdit(apps, root), world, root);
      FinishedSeq(edit, [Log("\r✅ " + name + " project created"), Exit]);
      BlockSettled(BiomeSteps(root, name, appDir), world, root);
      FinishedSeq(Block(BiomeSteps(root, name, appDir), world, root), ScriptsPlan(apps, root, name, world));
      FoldersRunSettled(apps, root, appDir, world);
      FinishedSeq(FoldersRun(apps, root, appDir, world), FinishPlan(apps, root, name, appDir, world));
    }
  }

  lemma LocatedPlanFinished(input: CreateInput, name: string, world: World)
    ensures Finished(LocatedPlan(input, name, world))
  {
    var path := ChosenPath(input);
    if !PathExists(world, path) {
      ErrorStepsFinished(PathMissing(ArgText(path)), "");
    } else {
      var root := path.text + name;
      var rest := SubfoldersPlan(input.foldersAnswer, root, name, input.appDir, world);
      SubfoldersPlanFinished(input.foldersAnswer, root, name, input.appDir, world);
      FinishedAfter([Log(WillCreate(name, root)), Ask(FOLDERS_QUESTION)], rest);
      BlockSettled(SetupSteps(root), world, "");
      FinishedSeq(Block(SetupSteps(root), world, ""), [Log(WillCreate(name, root)), Ask(FOLDERS_QUESTION)] + rest);
    }
  }

  /** Every run of `create` ends the process exactly once, as its last step. */
  lemma CreateTerminates(input: CreateInput, world: World)
    ensures Finished(CreatePlan(input, world))
  {
    var name := NormaliseName(RawName(input));
    if !ValidName(name) {
      ErrorStepsFinished(INVALID_NAME, "");
    } else {
      LocatedPlanFinished(input, name, world);
      FinishedAfter(AskedPath(input, name), LocatedPlan(input, name, world));
    }
    FinishedAfter(AskedName(input), NamedPlan(input, name, world));
  }

  /** An invalid project name stops `create` before anything is created: the error is
      printed and the process exits. */
  lemma CreateInvalidName(input: CreateInput, world: World)
    requires !ValidName(NormaliseName(RawName(input)))
    ensures var plan := CreatePlan(input, world);
      && Untouched(plan)
      && plan[|plan| - 2..] == [Log("\n❌ " + INVALID_NAME), Exit]
  {
    var errors := ErrorSteps(INVALID_NAME, "");
    NamedPlanInvalid(input, NormaliseName(RawName(input)), world);
    assert CreatePlan(input, world) == AskedName(input) + errors;
    UntouchedAppend(AskedName(input), errors);
    LastTwo(AskedName(input), errors);
  }

  lemma NamedPlanInvalid(input: CreateInput, name: string, world: World)
    requires !ValidName(name)
    ensures NamedPlan(input, name, world) == ErrorSteps(INVALID_NAME, "")
  {
  }

  lemma NamedPlanMissingPath(input: CreateInput, name: string, world: World)
    requires ValidName(name) && !PathExists(world, ChosenPath(input))
    ensures NamedPlan(input, name, world)
      == AskedPath(input, name) + ErrorSteps(PathMissing(ArgText(ChosenPath(input))), "")
  {
    assert LocatedPlan(input, name, world) == ErrorSteps(PathMissing(ArgText(ChosenPath(input))), "");
  }

  /** A parent path that does not exist (a bare `-p` flag never does) stops `create`
      before anything is created. */
  lemma CreateMissingPath(input: CreateInput, world: World)
    requires ValidName(NormaliseName(RawName(input)))
    requires !PathExists(world, ChosenPath(input))
    ensures var plan := CreatePlan(input, world);
      && Untouched(plan)
      && plan[|plan| - 2..] == [Log("\n❌ " + PathMissing(ArgText(ChosenPath(input)))), Exit]
  {
    var name := NormaliseName(RawName(input));
    var errors := ErrorSteps(PathMissing(ArgText(ChosenPath(input))), "");
    NamedPlanMissingPath(input, name, world);
    assert CreatePlan(input, world) == AskedName(input) + (AskedPath(input, name) + errors);
    UntouchedAppend(AskedPath(input, name), errors);
    LastTwo(AskedPath(input, name), errors);
    UntouchedAppend(AskedName(input), AskedPath(input, name) + errors);
    LastTwo(AskedName(input), AskedPath(input, name) + errors);
  }

  /** The subfolder `apps[k]` with an unknown development environment, reached after the
      earlier ones completed, ends the loop there: the error is printed, the project
      folder is removed, the process exits, and no later subfolder is touched. */
  lemma CreateUnsupportedDevEnv(apps: seq<App>, k: nat, root: string, appDir: string, world: World)
    requires k < |apps| && HasDevEnv(apps[k]) && apps[k].devEnv.value != "vite" && root != ""
    requires !FoldersRun(apps[..k], root, appDir, world).ended
    ensures var r := FoldersRun(apps, root, appDir, world);
      && r.ended
      && r.steps == FoldersRun(apps[..k], root, appDir, world).steps
         + [Log("\n❌ " + Unsupported(apps[k].devEnv.value)),
            RemoveTree(root), Exit]
  {
    var env := apps[k].devEnv.value;
    FoldersRunSnoc(apps, k, root, appDir, world);
    FoldersRunStops(apps, k + 1, root, appDir, world);
    assert FolderRun(apps[k], root, appDir, world) == Run(ErrorSteps(Unsupported(env), root), true);
  }

  /** A subfolder without development environment, when nothing rejects: its folder,
      `npm init -y` in it, and an `index.js` naming it. */
  lemma CreatePlainFolder(app: App, root: string, appDir: string, world: World)
    requires !HasDevEnv(app) && NoneFails(PlainSteps(app.path, app.folder), world)
    ensures FolderRun(app, root, appDir, world) == Run(
      [CreateDirectory(app.path), RunCommand(app.path, "npm init -y"),
       WriteFile(app.path + "/index.js", "//" + app.folder + " entry file")], false)
  {
    BlockSucceeds(PlainSteps(app.path, app.folder), world, root);
  }

  /** A subfolder is supported when it has no development environment or "vite". */
  predicate Supported(app: App) {
    !HasDevEnv(app) || app.devEnv.value == "vite"
  }

  /** The subfolder is supported and none of its block's steps rejects in `world`. */
  predicate FolderSucceeds(app: App, root: string, appDir: string, world: World) {
    if !HasDevEnv(app) then NoneFails(PlainSteps(app.path, app.folder), world)
    else app.devEnv.value == "vite" && NoneFails(ViteSteps(root, app.folder, "react", app.path, app.port, appDir), world)
  }

  /** With every subfolder supported and none of their steps rejecting, the loop goes
      through all subfolders without ending the process, performing each block in full. */
  lemma {:induction false} FoldersRunCompletes(apps: seq<App>, root: string, appDir: string, world: World)
    requires forall i :: 0 <= i < |apps| ==> FolderSucceeds(apps[i], root, appDir, world)
    ensures !FoldersRun(apps, root, appDir, world).ended
    decreases |apps|
  {
    if |apps| > 0 {
      FoldersRunCompletes(apps[..|apps| - 1], root, appDir, world);
      var app := apps[|apps| - 1];
      assert FolderSucceeds(app, root, appDir, world);
      if HasDevEnv(app) {
        BlockSucceeds(ViteSteps(root, app.folder, "react", app.path, app.port, appDir), world, root);
      } else {
        BlockSucceeds(PlainSteps(app.path, app.folder), world, root);
      }
    }
  }

  /** When every subfolder succeeds and neither the Biome block nor the scripts edit
      rejects, `create` writes the parent scripts and finishes with the success line. */
  lemma CreateCompletes(apps: seq<App>, root: string, name: string, appDir: string, world: World)
    requires forall i :: 0 <= i < |apps| ==> FolderSucceeds(apps[i], root, appDir, world)
    requires NoneFails(BiomeSteps(root, name, appDir), world) && NoneFails(ScriptsEdit(apps, root), world)
    ensures var plan := AppsPlan(apps, root, name, appDir, world);
      && |plan| >= 3
      && plan[|plan| - 3..] == ScriptsEdit(apps, root) + [Log("\r✅ " + name + " project created"), Exit]
  {
    FoldersRunCompletes(apps, root, appDir, world);
    BlockSucceeds(BiomeSteps(root, name, appDir), world, root);
    BlockSucceeds(ScriptsEdit(apps, root), world, root);
    var tail := ScriptsEdit(apps, root) + [Log("\r✅ " + name + " project created"), Exit];
    assert ScriptsPlan(apps, root, name, world) == tail;
    var folders := FoldersRun(apps, root, appDir, world).steps;
    assert AppsPlan(apps, root, name, appDir, world) == folders + (BiomeSteps(root, name, appDir) + tail);
    AppendAssoc(folders, BiomeSteps(root, name, appDir), tail);
  }

  /** The success path of `create` from its input: a valid name, an existing path, a
      project folder that can be made, a valid subfolder answer whose subfolders all
      succeed, and no rejection in the Biome block or the scripts edit. The run then
      creates the project folder and ends with the scripts edit, the success line and the
      exit. */
  lemma CreateSucceeds(input: CreateInput, world: World)
    requires ValidName(NormaliseName(RawName(input))) && PathExists(world, ChosenPath(input))
    requires var name := NormaliseName(RawName(input));
      var root := ChosenPath(input).text + name;
      var apps := MapFolders(Split(input.foldersAnswer, ' '), root);
      && NoneFails(SetupSteps(root), world)
      && ValidFolders(input.foldersAnswer)
      && (forall i :: 0 <= i < |apps| ==> FolderSucceeds(apps[i], root, input.appDir, world))
      && NoneFails(BiomeSteps(root, name, input.appDir), world)
      && NoneFails(ScriptsEdit(apps, root), world)
    ensures var name := NormaliseName(RawName(input));
      var root := ChosenPath(input).text + name;
      var apps := MapFolders(Split(input.foldersAnswer, ' '), root);
      var plan := CreatePlan(input, world);
      && CreateDirectory(root) in plan
      && |plan| >= 3
      && plan[|plan| - 3..] == ScriptsEdit(apps, root) + [Log("\r✅ " + name + " project created"), Exit]
  {
    var name := NormaliseName(RawName(input));
    var root := ChosenPath(input).text + name;
    var apps := MapFolders(Split(input.foldersAnswer, ' '), root);
    BlockSucceeds(SetupSteps(root), world, "");
    CreateCompletes(apps, root, name, input.appDir, world);
    var apps_plan := AppsPlan(apps, root, name, input.appDir, world);
    var asked := [Log(WillCreate(name, root)), Ask(FOLDERS_QUESTION)];
    assert ProjectPlan(input, root, name, world) == SetupSteps(root) + (asked + apps_plan);
    var plan := CreatePlan(input, world);
    var prefix := AskedName(input) + AskedPath(input, name) + SetupSteps(root) + asked;
    assert plan == prefix + apps_plan;
    assert plan[|AskedName(input)| + |AskedPath(input, name)|] == CreateDirectory(root);
    assert plan[|plan| - 3..] == apps_plan[|apps_plan| - 3..];
  }
}
