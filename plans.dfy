/**
 * What the `create` and `add` commands do to the outside world, as a trace of abstract
 * steps: making directories, running commands in a folder, removing, writing, copying and
 * editing files, printing a line, asking a question, and exiting the process. The file
 * system and the child processes are a `World`: the paths that exist and, for each step
 * that can fail, the message it rejects with.
 *
 * Both commands share the same helpers: `handleError` (print, optionally remove a
 * folder, close readline — whose `close` handler calls `process.exit(0)`, so the trace
 * ends there), the `try` block of awaited steps that stops at the first rejection, the
 * name normalisation and validation, the path default, the vite scaffolding steps and
 * the `package.json` edits.
 */
module Plans {
  import opened Common
  import opened Strings

  /** An edit of a `package.json`: read it, apply `replace` calls, write it back. */
  datatype Edit =
    | ViteScripts(port: nat)          // the dev, build and lint script replacements
    | ParentScripts(lines: seq<string>) // the `test` script replaced by the joined lines

  datatype Step =
    | Ask(question: string)
    | Log(message: string)
    | CreateDirectory(path: string)
    | RunCommand(folder: string, command: string)
    | RemoveFile(path: string)
    | WriteFile(path: string, contents: string)
    | CopyFile(source: string, target: string)
    | EditFile(path: string, edit: Edit)
    | RemoveTree(path: string)
    | Exit

  /** The steps that go to the file system or a child process and can reject. */
  predicate Fallible(step: Step) {
    step.CreateDirectory? || step.RunCommand? || step.RemoveFile? || step.WriteFile?
    || step.CopyFile? || step.EditFile?
  }

  /** The paths that exist, and the rejection message of each failing step. */
  datatype World = World(existing: set<string>, failures: map<Step, string>)

  /** The rejection of a step in a world, if any: only fallible steps can reject. */
  function Outcome(world: World, step: Step): (r: Option<string>)
    ensures r.Some? <==> Fallible(step) && step in world.failures
  {
    if Fallible(step) && step in world.failures then Some(world.failures[step]) else None
  }

  /** A command-line value: absent, a bare flag (commander gives `true`), or a text. */
  datatype Arg = Missing | Flag | Given(text: string)

  /** JavaScript truthiness of the value. */
  predicate Truthy(a: Arg) {
    a.Flag? || (a.Given? && a.text != "")
  }

  /** The value as a template literal shows it. */
  function ArgText(a: Arg): string {
    match a
    case Missing => "null"
    case Flag => "true"
    case Given(s) => s
  }

  /** `existsSync(a)`: `true` is not a path, so it never exists. */
  predicate PathExists(world: World, a: Arg) {
    a.Given? && a.text in world.existing
  }

  /** The steps of `handleError(reason, path)`: print the reason, remove `path` when it is
      non-empty, then `rl.close()`, whose handler exits the process. */
  function ErrorSteps(reason: string, path: string): (steps: seq<Step>)
    ensures 2 <= |steps| <= 3
    ensures steps[0] == Log("\n❌ " + reason)
    ensures steps[|steps| - 1] == Exit
    ensures RemoveTree(path) in steps <==> path != ""
    ensures forall i :: 0 <= i < |steps| && steps[i].RemoveTree? ==> steps[i] == RemoveTree(path)
  {
    [Log("\n❌ " + reason)] + (if path != "" then [RemoveTree(path)] else []) + [Exit]
  }

  /** A partial trace, and whether it ended the process. */
  datatype Run = Run(steps: seq<Step>, ended: bool)

  /** Run `a`, then, unless it ended the process, `b`. */
  function Then(a: Run, b: Run): Run {
    if a.ended then a else Run(a.steps + b.steps, b.ended)
  }

  /** A `try` block of awaited steps whose `catch` calls `handleError(err, cleanup)`: the
      steps run in order until one rejects. */
  function Block(steps: seq<Step>, world: World, cleanup: string): Run
    decreases |steps|
  {
    if |steps| == 0 then Run([], false)
    else match Outcome(world, steps[0])
      case Some(err) => Run([steps[0]] + ErrorSteps(err, cleanup), true)
      case None =>
        var rest := Block(steps[1..], world, cleanup);
        Run([steps[0]] + rest.steps, rest.ended)
  }

  predicate NoneFails(steps: seq<Step>, world: World) {
    forall i :: 0 <= i < |steps| ==> Outcome(world, steps[i]).None?
  }

  /** When no step rejects, the block performs all of them and the process goes on. */
  lemma {:induction false} BlockSucceeds(steps: seq<Step>, world: World, cleanup: string)
    requires NoneFails(steps, world)
    ensures Block(steps, world, cleanup) == Run(steps, false)
    decreases |steps|
  {
    if |steps| > 0 {
      BlockSucceeds(steps[1..], world, cleanup);
    }
  }

  /** When step `k` is the first to reject, the steps up to and including it are
      performed, then `handleError` with its message ends the process. */
  lemma {:induction false} BlockFails(steps: seq<Step>, world: World, cleanup: string, k: nat)
    requires k < |steps| && NoneFails(steps[..k], world) && Outcome(world, steps[k]).Some?
    ensures Block(steps, world, cleanup)
      == Run(steps[..k + 1] + ErrorSteps(Outcome(world, steps[k]).value, cleanup), true)
    decreases k
  {
    if k > 0 {
      assert steps[1..][..k - 1] == steps[1..k];
      BlockFails(steps[1..], world, cleanup, k - 1);
      assert steps[1..][..k] == steps[1..k + 1];
      assert [steps[0]] + steps[1..k + 1] == steps[..k + 1];
    }
  }

  lemma AppendAssoc(a: seq<Step>, b: seq<Step>, c: seq<Step>)
    ensures (a + b) + c == a + (b + c)
  {
  }

  /** `Exit` appears nowhere in the steps. */
  predicate NoExit(steps: seq<Step>) {
    forall i :: 0 <= i < |steps| ==> !steps[i].Exit?
  }

  /** The trace of a finished process: `Exit` is its last step and appears only there. */
  predicate Finished(steps: seq<Step>) {
    |steps| >= 1 && steps[|steps| - 1] == Exit && NoExit(steps[..|steps| - 1])
  }

  lemma ErrorStepsFinished(reason: string, path: string)
    ensures Finished(ErrorSteps(reason, path))
  {
    var steps := ErrorSteps(reason, path);
    assert steps[..|steps| - 1] == [Log("\n❌ " + reason)] + (if path != "" then [RemoveTree(path)] else []);
  }

  lemma FinishedAfter(before: seq<Step>, steps: seq<Step>)
    requires NoExit(before) && Finished(steps)
    ensures Finished(before + steps)
  {
    assert (before + steps)[..|before + steps| - 1] == before + steps[..|steps| - 1];
  }

  /** A block of steps with no `Exit` either ends in a terminated trace or does not end
      the process, and then performs no `Exit`. */
  lemma {:induction false} BlockFinished(steps: seq<Step>, world: World, cleanup: string)
    requires NoExit(steps)
    ensures var r := Block(steps, world, cleanup); if r.ended then Finished(r.steps) else NoExit(r.steps)
    decreases |steps|
  {
    if |steps| > 0 {
      var r := Block(steps, world, cleanup);
      match Outcome(world, steps[0])
      case Some(err) =>
        ErrorStepsFinished(err, cleanup);
        FinishedAfter([steps[0]], ErrorSteps(err, cleanup));
      case None =>
        BlockFinished(steps[1..], world, cleanup);
        var rest := Block(steps[1..], world, cleanup);
        if rest.ended {
          FinishedAfter([steps[0]], rest.steps);
        }
    }
  }

  const INVALID_NAME: string := "Invalid project name. " + "Project name must be " + "a valid folder name format."

  /** The message of an unknown development environment `env`. */
  function Unsupported(env: string): string {
    env + " is not supported " + "dev environment. " + "Use vite instead."
  }

  /** The message of a parent path that does not exist. */
  function PathMissing(path: string): string {
    path + " path does not exists"
  }

  /** Neither a fallible step nor a removal: nothing on disk is created, changed or deleted. */
  predicate Untouched(steps: seq<Step>) {
    forall i :: 0 <= i < |steps| ==> !Fallible(steps[i]) && !steps[i].RemoveTree?
  }

  lemma UntouchedAppend(a: seq<Step>, b: seq<Step>)
    requires Untouched(a) && Untouched(b)
    ensures Untouched(a + b)
  {
    forall i | 0 <= i < |a + b| ensures !Fallible((a + b)[i]) && !(a + b)[i].RemoveTree? {
      if i < |a| { assert (a + b)[i] == a[i]; } else { assert (a + b)[i] == b[i - |a|]; }
    }
  }

  /** The last two steps of a trace come from its tail when the tail has two or more. */
  lemma LastTwo(a: seq<Step>, b: seq<Step>)
    requires |b| >= 2
    ensures (a + b)[|a + b| - 2..] == b[|b| - 2..]
  {
  }

  /** `name.replace(/\s/g, "_")`: every JavaScript whitespace character becomes "_". */
  function NormaliseName(s: string): (r: string)
    ensures |r| == |s|
    ensures forall i :: 0 <= i < |s| ==> r[i] == (if IsJsSpace(s[i]) then '_' else s[i])
  {
    if |s| == 0 then "" else [if IsJsSpace(s[0]) then '_' else s[0]] + NormaliseName(s[1..])
  }

  predicate IsNameChar(c: char) {
    IsAsciiLetter(c) || IsAsciiDigit(c) || c == '_' || c == '-'
  }

  /** `/^[a-zA-Z0-9_-]+$/.test(name)`. */
  predicate ValidName(s: string) {
    |s| >= 1 && forall i :: 0 <= i < |s| ==> IsNameChar(s[i])
  }

  /** A normalised name holds no whitespace, and normalising it again changes nothing. */
  lemma NormaliseNameIdempotent(s: string)
    ensures forall i :: 0 <= i < |s| ==> !IsJsSpace(NormaliseName(s)[i])
    ensures NormaliseName(NormaliseName(s)) == NormaliseName(s)
  {
  }

  /** Which raw names are accepted: exactly the non-empty ones made of name characters
      and whitespace (the whitespace becomes "_"). */
  lemma NormalisedValid(s: string)
    ensures ValidName(NormaliseName(s)) <==>
      |s| >= 1 && forall i :: 0 <= i < |s| ==> IsNameChar(s[i]) || IsJsSpace(s[i])
  {
    var r := NormaliseName(s);
    if |s| >= 1 && forall i :: 0 <= i < |s| ==> IsNameChar(s[i]) || IsJsSpace(s[i]) {
      forall i | 0 <= i < |r| ensures IsNameChar(r[i]) {
        assert r[i] == (if IsJsSpace(s[i]) then '_' else s[i]);
      }
    }
    if ValidName(r) {
      forall i | 0 <= i < |s| ensures IsNameChar(s[i]) || IsJsSpace(s[i]) {
        assert IsNameChar(r[i]);
      }
    }
  }

  /** The answer to "where": "." and "" mean the current folder, "./". */
  function DefaultPath(answer: string): (path: string)
    ensures path != "" && path != "."
    ensures answer != "" && answer != "." ==> path == answer
  {
    if answer == "." || answer == "" then "./" else answer
  }

  lemma DefaultPathIdempotent(answer: string)
    ensures DefaultPath(DefaultPath(answer)) == DefaultPath(answer)
    ensures answer == "." ==> DefaultPath(answer) == DefaultPath("")
  {
  }

  const DEV_PATTERN: Pattern := LiteralPattern("\"dev\": \"vite\"")
  const BUILD_PATTERN: Pattern := LiteralPattern("\"build\": \"vite build\"")
  /** `/"lint": "eslint . --ext ...",\n/`: the `.` after `eslint` is a wildcard. */
  const LINT_PATTERN: Pattern :=
    LiteralPattern("\"lint\": \"eslint ") + [AnyChar]
    + LiteralPattern(" --ext js,jsx " + "--report-unused-" + "disable-directives " + "--max-warnings 0\",\n")
  /** The `test` script `npm init -y` writes, with its escaped quotes. */
  const TEST_PATTERN: Pattern := LiteralPattern("\"test\": \"echo " + "\\\"Error: no test specified\\\" " + "&& exit 1\"")

  const BUILD_SCRIPTS: string :=
    "\"build-patch\": " + "\"npm version patch " + "&& vite build\",\n    "
    + "\"build-minor\": " + "\"npm version minor " + "&& vite build\",\n    "
    + "\"build-major\": " + "\"npm version major " + "&& vite build\""

  function DevScript(port: nat): string {
    "\"dev\": \"vite --open --port " + NatText(port) + "\""
  }

  /** The new `package.json` text after the edit: each `replace` hits the leftmost match only. */
  function ApplyEdit(edit: Edit, contents: string): string {
    match edit
    case ViteScripts(port) =>
      var dev := ReplaceFirst(contents, DEV_PATTERN, DevScript(port));
      var build := ReplaceFirst(dev, BUILD_PATTERN, BUILD_SCRIPTS);
      ReplaceFirst(build, LINT_PATTERN, "")
    case ParentScripts(lines) => ReplaceFirst(contents, TEST_PATTERN, Join(lines, "\n    "))
  }

  ghost predicate NoMatch(s: string, p: Pattern) {
    forall j :: !MatchesAt(s, j, p)
  }

  lemma ReplaceFirstNoMatch(s: string, p: Pattern, replacement: string)
    requires NoMatch(s, p)
    ensures ReplaceFirst(s, p, replacement) == s
  {
    ReplaceFirstSpec(s, p, replacement);
  }

  /** A `package.json` with none of the scripts the vite edit looks for is written back
      unchanged. */
  lemma ViteScriptsNoMatch(port: nat, contents: string)
    requires NoMatch(contents, DEV_PATTERN) && NoMatch(contents, BUILD_PATTERN)
    requires NoMatch(contents, LINT_PATTERN)
    ensures ApplyEdit(ViteScripts(port), contents) == contents
  {
    ReplaceFirstNoMatch(contents, DEV_PATTERN, DevScript(port));
    ReplaceFirstNoMatch(contents, BUILD_PATTERN, BUILD_SCRIPTS);
    ReplaceFirstNoMatch(contents, LINT_PATTERN, "");
  }

  /** A `package.json` without the default `test` script is written back unchanged. */
  lemma ParentScriptsNoMatch(lines: seq<string>, contents: string)
    requires NoMatch(contents, TEST_PATTERN)
    ensures ApplyEdit(ParentScripts(lines), contents) == contents
  {
    ReplaceFirstNoMatch(contents, TEST_PATTERN, Join(lines, "\n    "));
  }

  /** The parent scripts go in place of the leftmost `test` script, and nowhere else. */
  lemma ParentScriptsPlacement(lines: seq<string>, contents: string, i: nat)
    requires MatchesAt(contents, i, TEST_PATTERN)
    requires forall j: nat :: j < i ==> !MatchesAt(contents, j, TEST_PATTERN)
    ensures ApplyEdit(ParentScripts(lines), contents)
      == contents[..i] + Join(lines, "\n    ") + contents[i + |TEST_PATTERN|..]
  {
    ReplaceFirstSpec(contents, TEST_PATTERN, Join(lines, "\n    "));
  }

  /** The leftmost dev script of a generated vite app gets the port, in place. */
  lemma DevScriptPlacement(port: nat, contents: string, i: nat)
    requires MatchesAt(contents, i, DEV_PATTERN)
    requires forall j: nat :: j < i ==> !MatchesAt(contents, j, DEV_PATTERN)
    ensures ReplaceFirst(contents, DEV_PATTERN, DevScript(port))
      == contents[..i] + DevScript(port) + contents[i + |DEV_PATTERN|..]
  {
    ReplaceFirstSpec(contents, DEV_PATTERN, DevScript(port));
  }

  /** The scaffolding of a vite app named `folder` in `target`, created from `parent`:
      generate it from `template`, install, remove three generated files, edit the scripts,
      copy the vite config and create the env folder with two empty env files. */
  function ViteSteps(parent: string, folder: string, template: string, target: string, port: nat,
                     appDir: string): (steps: seq<Step>)
    ensures |steps| == 10 && NoExit(steps)
    ensures forall i :: 0 <= i < |steps| ==> Fallible(steps[i])
    ensures steps[0] == RunCommand(parent, "npm create vite@latest " + folder + " -- --template " + template)
    ensures steps[5] == EditFile(target + "/package.json", ViteScripts(port))
  {
    [ RunCommand(parent, "npm create vite@latest " + folder + " -- --template " + template),
      RunCommand(target, "npm install"),
      RemoveFile(target + "/.eslintrc.cjs"),
      RemoveFile(target + "/.gitignore"),
      RemoveFile(target + "/README.md"),
      EditFile(target + "/package.json", ViteScripts(port)),
      CopyFile(appDir + "/filesTemplate/vite.config.js", target + "/vite.config.js"),
      CreateDirectory(target + "/envDir"),
      WriteFile(target + "/envDir/.env.production", ""),
      WriteFile(target + "/envDir/.env.development", "") ]
  }

  /** A plain Node app in `target`: the folder, `npm init -y`, and an `index.js` stub. */
  function PlainSteps(target: string, name: string): (steps: seq<Step>)
    ensures NoExit(steps)
    ensures forall i :: 0 <= i < |steps| ==> Fallible(steps[i])
  {
    [CreateDirectory(target), RunCommand(target, "npm init -y"), WriteFile(target + "/index.js", "//" + name + " entry file")]
  }

  /** The process: the world it runs in, the trace so far, and whether it has exited. */
  class Shell {
    const world: World
    var trace: seq<Step>
    var exited: bool

    constructor (world: World)
      ensures this.world == world && trace == [] && !exited
    {
      this.world := world;
      trace := [];
      exited := false;
    }

    /** Perform one step; a fallible step may reject with a message. */
    method Perform(step: Step) returns (failure: Option<string>)
      requires !exited && !step.Exit?
      modifies this`trace
      ensures trace == old(trace) + [step]
      ensures failure == Outcome(world, step)
    {
      trace := trace + [step];
      failure := Outcome(world, step);
    }

    /** `rl.close()`: the `close` handler calls `process.exit(0)`. */
    method Close()
      requires !exited
      modifies this
      ensures trace == old(trace) + [Exit] && exited
    {
      trace := trace + [Exit];
      exited := true;
    }

    method HandleError(reason: string, path: string)
      requires !exited
      modifies this
      ensures trace == old(trace) + ErrorSteps(reason, path) && exited
    {
      var _ := Perform(Log("\n❌ " + reason));
      if path != "" {
        var _ := Perform(RemoveTree(path));
      }
      Close();
    }

    /** Run the awaited steps of a `try` block in order; on the first rejection, call
        `handleError` with its message and `cleanup`. */
    method RunBlock(steps: seq<Step>, cleanup: string) returns (ended: bool)
      requires !exited && NoExit(steps)
      modifies this
      ensures trace == old(trace) + Block(steps, world, cleanup).steps
      ensures ended == exited == Block(steps, world, cleanup).ended
    {
      var i := 0;
      while i < |steps|
        invariant 0 <= i <= |steps|
        invariant trace == old(trace) + steps[..i] && !exited
        invariant NoneFails(steps[..i], world)
      {
        var failure := Perform(steps[i]);
        if failure.Some? {
          HandleError(failure.value, cleanup);
          BlockFails(steps, world, cleanup, i);
          return true;
        }
        assert steps[..i + 1] == steps[..i] + [steps[i]];
        i := i + 1;
      }
      assert steps[..i] == steps;
      BlockSucceeds(steps, world, cleanup);
      return false;
    }
  }
}
