/**
 * filesTemplate/workflowTemplate.js: the two GitHub Actions job texts the tool writes into a
 * monorepo's workflow. `checkAppVersionJob(apps)` checks, for every app, whether the version
 * in its package.json changed; `buildJob(app, buildable)` builds (when `buildable`) and
 * deploys one app once its version changed. Apps are given by their names. Each multi-line
 * template literal is written as a list of its lines joined by newlines; `${{ ... }}`
 * (escaped as `\${{` in the source) is literal text for GitHub Actions.
 */
module WorkflowTemplate {
  import opened Strings

  /** The lines of the job up to the per-app steps; the last one is the indentation the
      first step block follows. */
  const CHECK_HEAD_LINES: seq<string> := [
    "", "    ", "  check-version:", "    needs: quality", "    runs-on: ubuntu-latest",
    "    name: Check apps version", "    steps:", "      - name: Checkout",
    "        uses: actions/checkout@v4", "    "]

  /** The text between the step blocks and the output blocks. */
  const CHECK_MIDDLE: string := " \n    outputs:\n    "

  /** The lines of one app's version-check step (its block starts with a newline). */
  function StepLines(name: string): seq<string> {
    [ "      - name: Check if " + name + " version has been updated",
      "        id: check-" + name,
      "        uses: " + "EndBug/version-check@v2.1.5",
      "        with:",
      "          file-name: ./" + name + "/package.json",
      "          diff-search: true",
      "" ]
  }

  /** The lines of one app's three outputs (its block starts with a newline). */
  function OutputLines(name: string): seq<string> {
    [ "      " + name + "-changed: ${{ steps.check-" + name + ".outputs.changed }}",
      "      " + name + "-commit: ${{ steps.check-" + name + ".outputs.commit }}",
      "      " + name + "-version: ${{ steps.check-" + name + ".outputs.version }}",
      "",
      "      " ]
  }

  function StepBlock(name: string): string {
    "\n" + Join(StepLines(name), "\n")
  }

  function OutputBlock(name: string): string {
    "\n" + Join(OutputLines(name), "\n")
  }

  /** `apps.map(app => <step block>).join("")`. */
  function StepBlocks(names: seq<string>): string {
    Concat(seq(|names|, i requires 0 <= i < |names| => StepBlock(names[i])))
  }

  /** `apps.map(app => <output block>).join("")`. */
  function OutputBlocks(names: seq<string>): string {
    Concat(seq(|names|, i requires 0 <= i < |names| => OutputBlock(names[i])))
  }

  /** `checkAppVersionJob(apps)`. */
  function CheckAppVersionJob(names: seq<string>): string {
    Join(CHECK_HEAD_LINES, "\n") + StepBlocks(names) + CHECK_MIDDLE + OutputBlocks(names) + "\n"
  }

  /** `name.charAt(0).toUpperCase() + name.slice(1)`. */
  function Capitalize(name: string): (r: string)
    ensures |r| == |name|
    ensures |name| > 0 ==> r[0] == UpperChar(name[0]) && r[1..] == name[1..]
  {
    if |name| == 0 then "" else [UpperChar(name[0])] + name[1..]
  }

  /** The lines of a build job before the optional build steps. */
  function BuildHeadLines(name: string): seq<string> {
    [ "",
      "",
      "  build-" + name + ":",
      "    if: ${{ always() && " + "contains(join(needs.quality" + ".result, ','), 'success') && "
        + "needs.check-version.outputs." + name + "-changed == 'true' }}",
      "    needs: " + "[quality, check-version]",
      "    runs-on: ubuntu-latest",
      "    name: Build and Deploy " + Capitalize(name),
      "    defaults:",
      "      run:",
      "        working-directory: ./" + name,
      "    steps:",
      "    - name: git-checkout",
      "      uses: actions/checkout@v4",
      "",
      "    - name: building",
      "      run: |",
      "        echo \"Version change " + "found in commit ${{ " + "needs.check-version.outputs." + name
        + "-commit }}! New version: " + "${{ needs.check-version.outputs." + name + "-version }}\"",
      "        echo \"Starting " + "to build and publish " + name + " app\"",
      "    " ]
  }

  /** The env-file, install and build steps of a buildable app (their text starts with a
      newline). */
  function BuildStepLines(name: string): seq<string> {
    [ "    - name: 'Create env file'",
      "      run: |",
      "        mkdir envDir",
      "        echo \"${{ secrets." + ToUpper(name) + "_ENV_FILE }}\" > envDir/.env",
      "",
      "    - name: " + "Install all dependencies",
      "      run: npm install",
      "        ",
      "    - name: Build",
      "      run: npm run build" ]
  }

  /** Where the deploy step takes the files from. */
  function DeployPath(name: string, buildable: bool): string {
    if buildable then "./" + name + "/dist/" else "./" + name + "/"
  }

  /** The lines of the deploy step (their text starts with a newline). */
  function DeployLines(name: string, buildable: bool): seq<string> {
    [ "  ",
      "    - name: Deploy",
      "      uses: " + "burnett01/rsync-deployments@7.0.2",
      "      with:",
      "        switches: " + "-avz --delete --exclude-from='./" + name + "/rsync-ignore.txt'",
      "        path:  " + DeployPath(name, buildable),
      "        remote_path: " + "${{ secrets.DEPLOY_" + ToUpper(name) + "_PATH }}",
      "        remote_host: " + "${{ secrets.DEPLOY_HOST }}",
      "        remote_port: " + "${{ secrets.DEPLOY_PORT }}",
      "        remote_user: " + "${{ secrets.DEPLOY_USER }}",
      "        remote_key: " + "${{ secrets.DEPLOY_KEY }}",
      "          " ]
  }

  /** `buildJob(app, buildable)`. */
  function BuildJob(name: string, buildable: bool): string {
    Join(BuildHeadLines(name), "\n")
    + (if buildable then "\n" + Join(BuildStepLines(name), "\n") else "")
    + "\n" + Join(DeployLines(name, buildable), "\n")
  }

  /** The line lists of the apps' version-check steps, in the order of the apps. */
  function StepLineBlocks(names: seq<string>): seq<seq<string>> {
    seq(|names|, i requires 0 <= i < |names| => StepLines(names[i]))
  }

  /** The line lists of the apps' outputs, in the order of the apps. */
  function OutputLineBlocks(names: seq<string>): seq<seq<string>> {
    seq(|names|, i requires 0 <= i < |names| => OutputLines(names[i]))
  }

  /** Splitting the step blocks at newlines gives back an empty line, then each app's seven
      step lines in the order of the apps. */
  lemma StepBlocksSplit(names: seq<string>)
    requires forall i :: 0 <= i < |names| ==> '\n' !in names[i]
    ensures Split(StepBlocks(names), '\n') == [""] + Flatten(StepLineBlocks(names))
    ensures |Split(StepBlocks(names), '\n')| == 1 + 7 * |names|
  {
    var blocks := StepLineBlocks(names);
    forall i | 0 <= i < |blocks|
      ensures |blocks[i]| >= 1 && LinesAvoid(blocks[i], '\n')
    {
      StepLinesFree(names[i]);
    }
    assert NewlineBlocks(blocks) == seq(|names|, i requires 0 <= i < |names| => StepBlock(names[i])) by {
      NewlineBlocksMap(blocks);
    }
    SplitNewlineBlocks(blocks);
    FlattenLength(blocks, 7);
  }

  /** Splitting the output blocks at newlines gives back an empty line, then each app's five
      output lines in the order of the apps. */
  lemma OutputBlocksSplit(names: seq<string>)
    requires forall i :: 0 <= i < |names| ==> '\n' !in names[i]
    ensures Split(OutputBlocks(names), '\n') == [""] + Flatten(OutputLineBlocks(names))
    ensures |Split(OutputBlocks(names), '\n')| == 1 + 5 * |names|
  {
    var blocks := OutputLineBlocks(names);
    forall i | 0 <= i < |blocks|
      ensures |blocks[i]| >= 1 && LinesAvoid(blocks[i], '\n')
    {
      OutputLinesFree(names[i]);
    }
    assert NewlineBlocks(blocks) == seq(|names|, i requires 0 <= i < |names| => OutputBlock(names[i])) by {
      NewlineBlocksMap(blocks);
    }
    SplitNewlineBlocks(blocks);
    FlattenLength(blocks, 5);
  }

  /** The lines of the step blocks: seven lines per app in the order of the apps, naming the
      step after the app, with id `check-<app>` and the app's package.json. */
  lemma CheckStepsPerApp(names: seq<string>)
    requires forall i :: 0 <= i < |names| ==> '\n' !in names[i]
    ensures var lines := Split(StepBlocks(names), '\n');
      && |lines| == 1 + 7 * |names|
      && lines[0] == ""
      && forall i :: 0 <= i < |names| ==>
        && lines[1 + 7 * i] == "      - name: Check if " + names[i] + " version has been updated"
        && lines[2 + 7 * i] == "        id: check-" + names[i]
        && lines[3 + 7 * i] == "        uses: " + "EndBug/version-check@v2.1.5"
        && lines[5 + 7 * i] == "          file-name: ./" + names[i] + "/package.json"
  {
    StepBlocksSplit(names);
    var blocks := StepLineBlocks(names);
    var lines := Split(StepBlocks(names), '\n');
    forall i | 0 <= i < |names|
      ensures lines[1 + 7 * i] == "      - name: Check if " + names[i] + " version has been updated"
      ensures lines[2 + 7 * i] == "        id: check-" + names[i]
      ensures lines[3 + 7 * i] == "        uses: " + "EndBug/version-check@v2.1.5"
      ensures lines[5 + 7 * i] == "          file-name: ./" + names[i] + "/package.json"
    {
      FlattenIndex(blocks, 7, i, 0);
      FlattenIndex(blocks, 7, i, 1);
      FlattenIndex(blocks, 7, i, 2);
      FlattenIndex(blocks, 7, i, 4);
    }
  }

  /** The lines of the output blocks: five lines per app in the order of the apps, whose
      first three are the app's `-changed`, `-commit` and `-version` outputs read from step
      `check-<app>`. */
  lemma CheckOutputsPerApp(names: seq<string>)
    requires forall i :: 0 <= i < |names| ==> '\n' !in names[i]
    ensures var lines := Split(OutputBlocks(names), '\n');
      && |lines| == 1 + 5 * |names|
      && lines[0] == ""
      && forall i :: 0 <= i < |names| ==>
        && lines[1 + 5 * i] == "      " + names[i] + "-changed: ${{ steps.check-" + names[i] + ".outputs.changed }}"
        && lines[2 + 5 * i] == "      " + names[i] + "-commit: ${{ steps.check-" + names[i] + ".outputs.commit }}"
        && lines[3 + 5 * i] == "      " + names[i] + "-version: ${{ steps.check-" + names[i] + ".outputs.version }}"
  {
    OutputBlocksSplit(names);
    var blocks := OutputLineBlocks(names);
    var lines := Split(OutputBlocks(names), '\n');
    forall i | 0 <= i < |names|
      ensures lines[1 + 5 * i] == "      " + names[i] + "-changed: ${{ steps.check-" + names[i] + ".outputs.changed }}"
      ensures lines[2 + 5 * i] == "      " + names[i] + "-commit: ${{ steps.check-" + names[i] + ".outputs.commit }}"
      ensures lines[3 + 5 * i] == "      " + names[i] + "-version: ${{ steps.check-" + names[i] + ".outputs.version }}"
    {
      FlattenIndex(blocks, 5, i, 0);
      FlattenIndex(blocks, 5, i, 1);
      FlattenIndex(blocks, 5, i, 2);
    }
  }

  lemma {:induction false} NewlineBlocksMap(blocks: seq<seq<string>>)
    ensures NewlineBlocks(blocks) == seq(|blocks|, i requires 0 <= i < |blocks| => "\n" + Join(blocks[i], "\n"))
    decreases |blocks|
  {
    if |blocks| > 0 {
      NewlineBlocksMap(blocks[1..]);
    }
  }

  lemma StepLinesFree(name: string)
    requires '\n' !in name
    ensures LinesAvoid(StepLines(name), '\n')
  {
    StepLineFree("      - name: Check if ", name, " version has been updated");
    StepLineFree("        id: check-", name, "");
    StepLineFree("          file-name: ./", name, "/package.json");
    StepFixedLinesFree();
  }

  lemma StepFixedLinesFree()
    ensures var line := "        uses: " + "EndBug/version-check@v2.1.5";
      forall i :: 0 <= i < |line| ==> line[i] != '\n'
    ensures forall i :: 0 <= i < |"        with:"| ==> "        with:"[i] != '\n'
    ensures forall i :: 0 <= i < |"          diff-search: true"| ==> "          diff-search: true"[i] != '\n'
  {
  }

  /** A line made of newline-free literal text around a newline-free name holds no newline. */
  lemma StepLineFree(prefix: string, name: string, suffix: string)
    requires '\n' !in name
    requires forall i :: 0 <= i < |prefix| ==> prefix[i] != '\n'
    requires forall i :: 0 <= i < |suffix| ==> suffix[i] != '\n'
    ensures '\n' !in prefix + name + suffix
  {
  }

  lemma OutputLinesFree(name: string)
    requires '\n' !in name
    ensures LinesAvoid(OutputLines(name), '\n')
  {
    StepLineFree("      ", name, "-changed: ${{ steps.check-");
    StepLineFree("      " + name + "-changed: ${{ steps.check-", name, ".outputs.changed }}");
    StepLineFree("      ", name, "-commit: ${{ steps.check-");
    StepLineFree("      " + name + "-commit: ${{ steps.check-", name, ".outputs.commit }}");
    StepLineFree("      ", name, "-version: ${{ steps.check-");
    StepLineFree("      " + name + "-version: ${{ steps.check-", name, ".outputs.version }}");
  }

  /** The lines of a build job, in order: its head, then the env-file, install and build
      steps only when the app is buildable, then the deploy step. */
  function BuildJobLines(name: string, buildable: bool): seq<string> {
    BuildHeadLines(name) + (if buildable then BuildStepLines(name) else []) + DeployLines(name, buildable)
  }

  /** The job text is its lines joined by newlines: the optional steps sit between the
      head and the deploy step, and leave no line behind when the app is not buildable. */
  lemma BuildJobText(name: string, buildable: bool)
    ensures BuildJob(name, buildable) == Join(BuildJobLines(name, buildable), "\n")
  {
    JoinOptional(BuildHeadLines(name), BuildStepLines(name), DeployLines(name, buildable), buildable);
  }

  /** Joining head, optional middle and tail lines. */
  lemma {:induction false} JoinOptional(h: seq<string>, e: seq<string>, d: seq<string>, present: bool)
    requires |h| >= 1 && |e| >= 1 && |d| >= 1
    ensures Join(h, "\n") + (if present then "\n" + Join(e, "\n") else "") + "\n" + Join(d, "\n")
      == Join(h + (if present then e else []) + d, "\n")
  {
    if present {
      JoinConcat(h, e, "\n");
      JoinConcat(h + e, d, "\n");
    } else {
      JoinConcat(h, d, "\n");
      assert h + [] + d == h + d;
    }
  }

  /** The head of a build job: the job key `build-<app>`, run only when the version check
      found the app changed, and the display name with a capital first letter. */
  lemma BuildJobHead(name: string, buildable: bool)
    ensures var lines := BuildJobLines(name, buildable);
      && lines[2] == "  build-" + name + ":"
      && lines[3] == "    if: ${{ always() && " + "contains(join(needs.quality" + ".result, ','), 'success') && "
           + "needs.check-version.outputs." + name + "-changed == 'true' }}"
      && lines[6] == "    name: Build and Deploy " + Capitalize(name)
  {
    var h := BuildHeadLines(name);
    var lines := BuildJobLines(name, buildable);
    assert lines[..19] == h;
  }

  /** A buildable app gets the env-file step with the `<APP>_ENV_FILE` secret and deploys
      from `dist/`. */
  lemma BuildJobBuildable(name: string)
    ensures var lines := BuildJobLines(name, true);
      && |lines| == 41
      && lines[19] == "    - name: 'Create env file'"
      && lines[22] == "        echo \"${{ secrets." + ToUpper(name) + "_ENV_FILE }}\" > envDir/.env"
      && lines[28] == "      run: npm run build"
      && lines[34] == "        path:  " + ("./" + name + "/dist/")
      && lines[35] == "        remote_path: " + "${{ secrets.DEPLOY_" + ToUpper(name) + "_PATH }}"
  {
    var h, e, d := BuildHeadLines(name), BuildStepLines(name), DeployLines(name, true);
    assert |h| == 19 && |e| == 10 && |d| == 12;
    var lines := h + e + d;
    assert lines[19] == e[0] && lines[22] == e[3] && lines[28] == e[9];
    assert lines[34] == d[5] && lines[35] == d[6];
  }

  /** An app that is not buildable goes straight from the head to the deploy step and
      deploys its own folder. */
  lemma BuildJobNotBuildable(name: string)
    ensures var lines := BuildJobLines(name, false);
      && |lines| == 31
      && lines[19] == "  "
      && lines[20] == "    - name: Deploy"
      && lines[24] == "        path:  " + ("./" + name + "/")
      && lines[25] == "        remote_path: " + "${{ secrets.DEPLOY_" + ToUpper(name) + "_PATH }}"
  {
    var h, d := BuildHeadLines(name), DeployLines(name, false);
    var lines := BuildJobLines(name, false);
    assert lines == h + d;
    assert |h| == 19 && |d| == 12;
    assert lines[19] == d[0] && lines[20] == d[1];
    assert lines[24] == d[5] && lines[25] == d[6];
  }

  /** The display name keeps every character but the first, which is upper-cased. */
  lemma CapitalizeSpec(name: string)
    ensures |Capitalize(name)| == |name|
    ensures forall i :: 0 < i < |name| ==> Capitalize(name)[i] == name[i]
    ensures |name| > 0 && 'a' <= name[0] <= 'z' ==> Capitalize(name)[0] == (name[0] as int - 32) as char
    ensures |name| > 0 && !('a' <= name[0] <= 'z') ==> Capitalize(name)[0] == name[0]
  {
    if |name| > 0 {
      var c := Capitalize(name);
      forall i | 0 < i < |name| ensures c[i] == name[i] {
        assert c[i] == c[1..][i - 1];
      }
    }
  }
}
