/**
 * The `add <app>` command: normalise and validate the app name, settle the parent path,
 * refuse a parent that does not exist or an app folder that already does, then scaffold
 * the app — a plain Node app for development environment "none", a vite app with the
 * chosen framework for "vite" — or, for any other environment, print the error and
 * remove the app folder.
 *
 * `Add` runs the command step by step on a `Shell`; `AddPlan` is the trace it produces as
 * a function of the inputs and the world, about which the lemmas are stated.
 */
module AddCommand {
  import opened Common
  import opened Strings
  import opened Plans

  /** The command-line arguments, the answers the prompts would get, and the folder the
      tool is installed in. */
  datatype AddInput = AddInput(
    name: Option<string>, envOption: Arg, pathOption: Arg,
    pathAnswer: string, envAnswer: string, framework: string,
    appDir: string)

  /** What `${err}` shows for the TypeError of `null.replace(...)`. */
  const NULL_NAME_ERROR: string := "TypeError: Cannot read " + "properties of null " + "(reading 'replace')"
  const ENV_QUESTION: string := "❔ Do you want to install " + "any development environment?"

  function PathQuestion(name: string): string {
    "❔ Where do you want " + "to create the app " + name + "? (leave empty " + "for current path)\n"
  }

  function FrameworkQuestion(name: string): string {
    "❔ Pick a framework " + "for the app " + name + "?"
  }

  function AlreadyExists(name: string): string {
    name + " already exists " + "in the project folder."
  }

  function WillCreate(name: string, target: string): string {
    "✅ App " + name + " will be create on " + target + "."
  }

  function Created(name: string): string {
    "\r✅ " + name + " app created"
  }

  /** The parent path: the option when truthy, otherwise the answer with its default. */
  function ChosenPath(input: AddInput): Arg {
    if Truthy(input.pathOption) then input.pathOption else Given(DefaultPath(input.pathAnswer))
  }

  function AskedPath(input: AddInput, name: string): seq<Step> {
    if Truthy(input.pathOption) then [] else [Ask(PathQuestion(name))]
  }

  /** The development environment: the option when truthy, otherwise the selection. */
  function ChosenEnv(input: AddInput): Arg {
    if Truthy(input.envOption) then input.envOption else Given(input.envAnswer)
  }

  function AskedEnv(input: AddInput): seq<Step> {
    if Truthy(input.envOption) then [] else [Ask(ENV_QUESTION)]
  }

  /** The whole trace of `add`. */
  function AddPlan(input: AddInput, world: World): seq<Step> {
    if input.name.None? then ErrorSteps(NULL_NAME_ERROR, "")
    else NamedPlan(input, NormaliseName(input.name.value), world)
  }

  /** From the normalised name on: reject it, or settle the path. */
  function NamedPlan(input: AddInput, name: string, world: World): seq<Step> {
    if !ValidName(name) then ErrorSteps(INVALID_NAME, "")
    else AskedPath(input, name) + LocatedPlan(input, name, world)
  }

  /** The existence checks, then the announcement and the app itself. */
  function LocatedPlan(input: AddInput, name: string, world: World): seq<Step> {
    var path := ChosenPath(input);
    if !PathExists(world, path) then ErrorSteps(PathMissing(ArgText(path)), "")
    else if path.text + name in world.existing then ErrorSteps(AlreadyExists(name), "")
    else [Log(WillCreate(name, path.text + name))] + AskedEnv(input) + EnvPlan(input, path.text, name, world)
  }

  /** A block, then, unless it ended the process, the success line and `rl.close()`. */
  function Finish(run: Run, name: string): seq<Step> {
    if run.ended then run.steps else run.steps + [Log(Created(name)), Exit]
  }

  /** The dispatch on the development environment, for the app `parent + name`. */
  function EnvPlan(input: AddInput, parent: string, name: string, world: World): seq<Step> {
    var env := ChosenEnv(input);
    var target := parent + name;
    if env == Given("none") then Finish(Block(PlainSteps(target, name), world, target), name)
    else if env != Given("vite") then ErrorSteps(Unsupported(ArgText(env)), target)
    else
      [Ask(FrameworkQuestion(name))]
      + Finish(Block(ViteSteps(parent, name, input.framework, target, 3000, input.appDir), world, target), name)
  }

  // ---------------------------------------------------------------------------------
  // The command, step by step.
  // ---------------------------------------------------------------------------------

  method Add(shell: Shell, input: AddInput)
    requires !shell.exited
    modifies shell
    ensures shell.trace == old(shell.trace) + AddPlan(input, shell.world)
    ensures shell.exited
  {
    var appName := input.name;
    if appName.None? {
      shell.HandleError(NULL_NAME_ERROR, "");
      return;
    }
    var name := NormaliseName(appName.value);
    AddNamed(shell, input, name);
  }

  method AddNamed(shell: Shell, input: AddInput, name: string)
    requires !shell.exited
    modifies shell
    ensures shell.trace == old(shell.trace) + NamedPlan(input, name, shell.world)
    ensures shell.exited
  {
    if !ValidName(name) {
      shell.HandleError(INVALID_NAME, "");
      return;
    }
    var before := shell.trace;
    var appPath := input.pathOption;
    if !Truthy(appPath) {
      var _ := shell.Perform(Ask(PathQuestion(name)));
      appPath := Given(DefaultPath(input.pathAnswer));
    }
    assert shell.trace == before + AskedPath(input, name);
    AddLocated(shell, input, name, appPath);
    AppendAssoc(before, AskedPath(input, name), LocatedPlan(input, name, shell.world));
  }

  method AddLocated(shell: Shell, input: AddInput, name: string, appPath: Arg)
    requires !shell.exited && appPath == ChosenPath(input)
    modifies shell
    ensures shell.trace == old(shell.trace) + LocatedPlan(input, name, shell.world)
    ensures shell.exited
  {
    if !PathExists(shell.world, appPath) {
      shell.HandleError(PathMissing(ArgText(appPath)), "");
      return;
    }
    if appPath.text + name in shell.world.existing {
      shell.HandleError(AlreadyExists(name), "");
      return;
    }
    var before := shell.trace;
    var _ := shell.Perform(Log(WillCreate(name, appPath.text + name)));
    var devEnv := input.envOption;
    if !Truthy(devEnv) {
      var _ := shell.Perform(Ask(ENV_QUESTION));
      devEnv := Given(input.envAnswer);
    }
    var asked := [Log(WillCreate(name, appPath.text + name))] + AskedEnv(input);
    assert shell.trace == before + asked;
    AddApp(shell, input, appPath.text, name, devEnv);
    AppendAssoc(before, asked, EnvPlan(input, appPath.text, name, shell.world));
  }

  method AddApp(shell: Shell, input: AddInput, parent: string, name: string, devEnv: Arg)
    requires !shell.exited && devEnv == ChosenEnv(input)
    modifies shell
    ensures shell.trace == old(shell.trace) + EnvPlan(input, parent, name, shell.world)
    ensures shell.exited
  {
    var target := parent + name;
    var before := shell.trace;
    var block: seq<Step>;
    if devEnv != Given("none") {
      if devEnv != Given("vite") {
        shell.HandleError(Unsupported(ArgText(devEnv)), target);
        return;
      }
      var _ := shell.Perform(Ask(FrameworkQuestion(name)));
      block := ViteSteps(parent, name, input.framework, target, 3000, input.appDir);
    } else {
      block := PlainSteps(target, name);
    }
    var asked := shell.trace[|before|..];
    assert shell.trace == before + asked;
    var ended := shell.RunBlock(block, target);
    if !ended {
      var _ := shell.Perform(Log(Created(name)));
      shell.Close();
      AppendAssoc(before + asked, Block(block, shell.world, target).steps, [Log(Created(name)), Exit]);
    }
    AppendAssoc(before, asked, Finish(Block(block, shell.world, target), name));
  }

  // ---------------------------------------------------------------------------------
  // Properties of the trace.
  // ---------------------------------------------------------------------------------

  /** A block, with the success line appended when it does not end the process, is a
      finished trace. */
  lemma FinishFinished(block: seq<Step>, world: World, target: string, name: string)
    requires NoExit(block)
    ensures Finished(Finish(Block(block, world, target), name))
  {
    var run := Block(block, world, target);
    BlockFinished(block, world, target);
    if !run.ended {
      FinishedAfter(run.steps, [Log(Created(name)), Exit]);
    }
  }

  lemma EnvPlanFinished(input: AddInput, parent: string, name: string, world: World)
    ensures Finished(EnvPlan(input, parent, name, world))
  {
    var env := ChosenEnv(input);
    var target := parent + name;
    if env == Given("none") {
      FinishFinished(PlainSteps(target, name), world, target, name);
    } else if env != Given("vite") {
      ErrorStepsFinished(Unsupported(ArgText(env)), target);
    } else {
      var block := ViteSteps(parent, name, input.framework, target, 3000, input.appDir);
      FinishFinished(block, world, target, name);
      FinishedAfter([Ask(FrameworkQuestion(name))], Finish(Block(block, world, target), name));
    }
  }

  /** Every run of `add` ends the process exactly once, as its last step. */
  lemma AddTerminates(input: AddInput, world: World)
    ensures Finished(AddPlan(input, world))
  {
    if input.name.None? {
      ErrorStepsFinished(NULL_NAME_ERROR, "");
    } else {
      var name := NormaliseName(input.name.value);
      if !ValidName(name) {
        ErrorStepsFinished(INVALID_NAME, "");
      } else {
        LocatedPlanFinished(input, name, world);
        FinishedAfter(AskedPath(input, name), LocatedPlan(input, name, world));
      }
    }
  }

  lemma LocatedPlanFinished(input: AddInput, name: string, world: World)
    ensures Finished(LocatedPlan(input, name, world))
  {
    var path := ChosenPath(input);
    if !PathExists(world, path) {
      ErrorStepsFinished(PathMissing(ArgText(path)), "");
    } else if path.text + name in world.existing {
      ErrorStepsFinished(AlreadyExists(name), "");
    } else {
      EnvPlanFinished(input, path.text, name, world);
      FinishedAfter([Log(WillCreate(name, path.text + name))] + AskedEnv(input), EnvPlan(input, path.text, name, world));
    }
  }

  /** Without an app name, `null.replace` throws; the TypeError is printed and the
      process exits, with nothing touched. */
  lemma AddMissingName(input: AddInput, world: World)
    requires input.name.None?
    ensures AddPlan(input, world) == [Log("\n❌ " + NULL_NAME_ERROR), Exit]
  {
  }

  /** `handleError` without a path prints and exits, touching nothing. */
  lemma ErrorOnly(reason: string)
    ensures Untouched(ErrorSteps(reason, "")) && ErrorSteps(reason, "") == [Log("\n❌ " + reason), Exit]
  {
  }

  /** An invalid app name stops `add` before anything is touched. */
  lemma AddInvalidName(input: AddInput, world: World)
    requires input.name.Some? && !ValidName(NormaliseName(input.name.value))
    ensures var plan := AddPlan(input, world);
      Untouched(plan) && plan[|plan| - 2..] == [Log("\n❌ " + INVALID_NAME), Exit]
  {
    assert AddPlan(input, world) == ErrorSteps(INVALID_NAME, "");
    ErrorOnly(INVALID_NAME);
  }

  /** A parent path that does not exist (a bare `-p` flag never does) stops `add` before
      anything is touched. */
  lemma AddMissingPath(input: AddInput, world: World)
    requires input.name.Some? && ValidName(NormaliseName(input.name.value))
    requires !PathExists(world, ChosenPath(input))
    ensures var plan := AddPlan(input, world);
      Untouched(plan) && plan[|plan| - 2..] == [Log("\n❌ " + PathMissing(ArgText(ChosenPath(input)))), Exit]
  {
    var name := NormaliseName(input.name.value);
    var errors := ErrorSteps(PathMissing(ArgText(ChosenPath(input))), "");
    assert LocatedPlan(input, name, world) == errors;
    assert AddPlan(input, world) == AskedPath(input, name) + errors;
    ErrorOnly(PathMissing(ArgText(ChosenPath(input))));
    UntouchedAppend(AskedPath(input, name), errors);
    LastTwo(AskedPath(input, name), errors);
  }

  /** An app folder that is already there stops `add` before anything is touched; the
      existing folder is not removed. */
  lemma AddExistingApp(input: AddInput, world: World)
    requires input.name.Some? && ValidName(NormaliseName(input.name.value))
    requires PathExists(world, ChosenPath(input))
    requires ChosenPath(input).text + NormaliseName(input.name.value) in world.existing
    ensures var plan := AddPlan(input, world);
      Untouched(plan) && plan[|plan| - 2..] == [Log("\n❌ " + AlreadyExists(NormaliseName(input.name.value))), Exit]
  {
    var name := NormaliseName(input.name.value);
    var errors := ErrorSteps(AlreadyExists(name), "");
    assert LocatedPlan(input, name, world) == errors;
    assert AddPlan(input, world) == AskedPath(input, name) + errors;
    ErrorOnly(AlreadyExists(name));
    UntouchedAppend(AskedPath(input, name), errors);
    LastTwo(AskedPath(input, name), errors);
  }

  /** An environment other than "none" and "vite" (a bare `-e` flag included) prints the
      error and removes the app folder, having created nothing. */
  lemma AddUnsupportedEnv(input: AddInput, parent: string, name: string, world: World)
    requires ChosenEnv(input) != Given("none") && ChosenEnv(input) != Given("vite")
    requires name != ""
    ensures EnvPlan(input, parent, name, world)
      == [Log("\n❌ " + Unsupported(ArgText(ChosenEnv(input)))), RemoveTree(parent + name), Exit]
  {
  }

  /** Environment "none", when nothing rejects: the folder, `npm init -y`, an `index.js`
      naming the app, the success line, exit. */
  lemma AddPlainApp(input: AddInput, parent: string, name: string, world: World)
    requires ChosenEnv(input) == Given("none")
    requires NoneFails(PlainSteps(parent + name, name), world)
    ensures EnvPlan(input, parent, name, world) ==
      [ CreateDirectory(parent + name), RunCommand(parent + name, "npm init -y"),
        WriteFile(parent + name + "/index.js", "//" + name + " entry file"),
        Log(Created(name)), Exit ]
  {
    BlockSucceeds(PlainSteps(parent + name, name), world, parent + name);
  }

  /** Environment "vite", when nothing rejects: the framework is asked for, vite is run in
      the parent with that framework as template, the dev script gets port 3000, and the
      command ends with the success line. */
  lemma AddViteApp(input: AddInput, parent: string, name: string, world: World)
    requires ChosenEnv(input) == Given("vite")
    requires NoneFails(ViteSteps(parent, name, input.framework, parent + name, 3000, input.appDir), world)
    ensures var plan := EnvPlan(input, parent, name, world);
      && |plan| == 13
      && plan[0] == Ask(FrameworkQuestion(name))
      && plan[1] == RunCommand(parent, "npm create vite@latest " + name + " -- --template " + input.framework)
      && plan[6] == EditFile(parent + name + "/package.json", ViteScripts(3000))
      && plan[11..] == [Log(Created(name)), Exit]
  {
    var steps := ViteSteps(parent, name, input.framework, parent + name, 3000, input.appDir);
    BlockSucceeds(steps, world, parent + name);
  }
}
