# monorepo-automator, modelled in Dafny

monorepo-automator is a command-line tool that scaffolds JavaScript monorepos. This
project models its core and proves properties of the model:

- **`create [name]`** (`commands/create.js`) makes a project folder and `npm init`s it.
  It then reads a space-separated subfolder specification such as
  `client(vite) backoffice(vite) server`. Each subfolder becomes a vite app or a plain
  Node app. Finally it installs Biome and writes one run script per subfolder into the
  parent `package.json`.
- **`add <app>`** (`commands/add.js`) adds one app, plain or vite, to an existing project.
- **The arrow-key select prompt** (`utils/SelectPrompt.js`) draws the menu and handles the
  keypresses.
- **`ansiEraseLines`** (`utils/AnsiEraseLines.js`) builds the control string that erases
  the lines the prompt drew.
- **Three `package.json` and text-file edits** (`utils/AppendToFile.js`).
- **The readline path completer** (`utils/FileSystemCompleter.js`).
- **The two GitHub Actions job templates** (`filesTemplate/workflowTemplate.js`).

Modules, one per source file, plus shared ones:

| module | file | models |
|---|---|---|
| `Common` | `common.dfy` | `Option` and `Result` |
| `Strings` | `strings.dfy` | JavaScript's `split`/`join`, whitespace, ASCII `toUpperCase`, `String(n)`, and `replace` with a regular expression made of literal characters and `.` |
| `AnsiEraseLines` | `ansi_erase_lines.dfy` | the eraser. `EraseLines` is the source's loop as a method, proved equal to `EraseText`, a closed form over the three ECMA-48 controls EL, CUU and CHA. `Parse` reads the string back. |
| `SelectPrompt` | `select_prompt.dfy` | the prompt (see below) |
| `AppendToFile` | `append_to_file.dfy` | the three edits on the file's text or on the parsed JSON. A JSON object is an ordered list of members, because JavaScript keeps keys in insertion order. |
| `FileSystemCompleter` | `filesystem_completer.dfy` | the completer, over a directory listing given as a map |
| `WorkflowTemplate` | `workflow_template.dfy` | the job texts, each written as its lines joined by newlines |
| `Plans` | `plans.dfy` | what both commands share (see below) |
| `CreateCommand` | `create_command.dfy` | `create` |
| `FolderGrammar` | `folder_grammar.dfy` | the subfolder regular expression written as a grammar, and the proof that `create`'s scanning automaton accepts exactly what it describes |
| `AddCommand` | `add_command.dfy` | `add` |

**The select prompt.** A `Terminal` object holds the writes made to standard output and
the raw-mode, flowing and listening flags of standard input. A `Session` object holds
the closure state of one `select` call: the cursor index, the "first drawing" flag and
the promise's outcome. `Session.KeyPressed` is proved to perform the reference
transition `OnKey`, and the prompt's properties are lemmas about `OnKey`.

**The commands.** They are modelled as traces of abstract steps. The steps are:

- asking a question and printing a line;
- creating a directory;
- running a command in a folder;
- removing, writing, copying or editing a file;
- removing a tree;
- exiting the process.

A `World` is the set of paths that exist, plus the rejection message of each step that
fails. The `Shell` class is the running process: it holds the trace so far and whether
the process has exited. `Create` and `Add` are methods that run the command step by step
on a `Shell`, with the subfolder loop as a `while` loop. Each is proved to produce
exactly the trace of a plan function (`CreatePlan`, `AddPlan`), and the lemmas are
about the plans.

`handleError` ends with `rl.close()`. The `close` handler calls `process.exit(0)`, so
`handleError` ends the trace wherever it is called, even where the source does not
`return` after it. The lemmas therefore show that a rejected name or path creates
nothing.

## Model

| member | source | states |
|---|---|---|
| AnsiEraseLines.EraseLines | utils/AnsiEraseLines.js:8-18 | The loop's string is exactly `EraseText(count)`. That is (EL CUU)^(count-1) EL CHA for a positive count, CHA alone for a negative count (which is truthy), and nothing for 0. |
| AnsiEraseLines.ParseRender | utils/AnsiEraseLines.js:3-6 | The three control strings can be read back uniquely: parsing any concatenation of them gives the controls back. |
| AnsiEraseLines.ParseText | utils/AnsiEraseLines.js:3-6 | A control's text at the front of a string is read as that control. No control's text is a prefix of another's. |
| AnsiEraseLines.RenderAppend | utils/AnsiEraseLines.js:10-12 | Rendering two control sequences one after the other is rendering their concatenation. |
| AnsiEraseLines.PairsShape | utils/AnsiEraseLines.js:10-12 | The `count - 1` rounds that emit an erase and a cursor-up give 2n controls: EL at even places, CUU at odd places. |
| AnsiEraseLines.PairsCounts | utils/AnsiEraseLines.js:10-12 | Those rounds hold n erases, n cursor-ups and no CHA. |
| AnsiEraseLines.PairsRenderLength | utils/AnsiEraseLines.js:3-12 | Those rounds render to 8n characters. |
| AnsiEraseLines.EraseZero | utils/AnsiEraseLines.js:10-16 | Erasing 0 lines emits the empty string. |
| AnsiEraseLines.EraseNegative | utils/AnsiEraseLines.js:10-16 | A negative count emits CHA only: the loop does not run, but `if (count)` holds. |
| AnsiEraseLines.EraseControlsShape | utils/AnsiEraseLines.js:10-16 | For count >= 1 the output has: 2·count controls; `count` erases; `count - 1` cursor-ups, each between two erases; and one CHA, last. |
| AnsiEraseLines.CursorUpBetweenErases | utils/AnsiEraseLines.js:11 | Every cursor-up is preceded and followed by an erase. |
| AnsiEraseLines.EraseTextShape | utils/AnsiEraseLines.js:8-18 | For count >= 1 the string is 8·count − 1 characters long, ends in CHA, and parses back to `EraseControls(count)`. |
| AnsiEraseLines.EraseControls | utils/AnsiEraseLines.js:8-18 | The controls `ansiEraseLines(count)` emits, in closed form: none for 0, CHA alone for a negative count, (EL CUU)^(count-1) EL CHA otherwise. `EraseControlsShape`, `CursorUpBetweenErases`, `EraseZero` and `EraseNegative` state its shape. |
| AnsiEraseLines.EraseText | utils/AnsiEraseLines.js:8-18 | The string `ansiEraseLines(count)` returns: the rendering of `EraseControls(count)`. `EraseLines` proves the source's loop computes it; `EraseTextShape` states its length and that it parses back. |
| SelectPrompt.Normalise | utils/SelectPrompt.js:32-36 | `el.name ?? el`, `el.value ?? el` and `el.description ?? ""`. A bare string is its own name and value. A record lacking a name or value shows as the record itself. |
| SelectPrompt.NormaliseAll | utils/SelectPrompt.js:32-36 | `options.map`: one normalised option per option, in order. |
| SelectPrompt.ValidationError | utils/SelectPrompt.js:17-27 | The question is checked first: missing or empty gives the question error. Then the options: missing or empty gives the options error. Both directions of each case are stated. |
| SelectPrompt.PointerOf | utils/SelectPrompt.js:15 | A missing or empty pointer takes the default. A non-empty pointer is kept. The result is never empty. |
| SelectPrompt.MenuLines | utils/SelectPrompt.js:45-56 | One line per option, in order. Each starts with the one-space padding and shows either the pointer, the name and the description (selected line) or the name alone. |
| SelectPrompt.OnKey | utils/SelectPrompt.js:59-75 | The reference transition of one keypress keeps the cursor index within the options. |
| SelectPrompt.HideCursor | utils/SelectPrompt.js:116-118 | Appends the hide control, after which the cursor is hidden. |
| SelectPrompt.ShowCursor | utils/SelectPrompt.js:120-122 | Appends the show control, after which the cursor is visible. |
| SelectPrompt.CursorVisible | utils/SelectPrompt.js:116-122 | The cursor's visibility after a sequence of writes: the last hide or show control decides, visible when there is none. `CursorVisibleAppend`, `OpenedHidesCursor` and `RedrawKeepsCursor` state how the prompt's writes move it. |
| SelectPrompt.Down | utils/SelectPrompt.js:66 | The index after "down", as the source's conditional writes it. `NavigationWraps` proves it is +1 modulo the number of options, wrapping from the last to the first. |
| SelectPrompt.Up | utils/SelectPrompt.js:67 | The index after "up", as the source's conditional writes it. `NavigationWraps` proves it is −1 modulo the number of options, wrapping from the first to the last. |
| SelectPrompt.Redraw | utils/SelectPrompt.js:38-57 | `createOptionMenu` on the prompt state: the erase of one line per option unless this is the first drawing, then the menu lines. `Session.CreateOptionMenu` performs it; `Navigation`, `RedrawKeepsCursor` and `MenuLineCount` state its effect. |
| SelectPrompt.Confirm | utils/SelectPrompt.js:91-98 | `enter` on the prompt state. `Session.Enter` performs it; `ReturnResolves` states what it writes and that it resolves with the chosen value. |
| SelectPrompt.Cancel | utils/SelectPrompt.js:100-106 | `close` on the prompt state. `Session.Close` performs it; `CancelRejects` states what it writes and that it rejects with "Operation canceled". |
| SelectPrompt.Opened | utils/SelectPrompt.js:77-88 | The state right after `init`: the question line, the cursor hidden, the menu drawn with the first option selected, raw mode on and input flowing. `Session.Start` reaches it; `OpenedHidesCursor` follows from it. |
| SelectPrompt.Terminal.constructor | utils/SelectPrompt.js:5-6 | Standard output starts with no writes. Standard input starts neither raw, nor flowing, nor listened to. |
| SelectPrompt.Terminal.Write | utils/SelectPrompt.js:55 | `output.write` appends one write and changes nothing else. |
| SelectPrompt.Terminal.SetRawMode | utils/SelectPrompt.js:81 | `input.setRawMode(on)` sets raw mode to `on`. |
| SelectPrompt.Terminal.Resume | utils/SelectPrompt.js:82 | `input.resume()` makes input flow. |
| SelectPrompt.Terminal.Pause | utils/SelectPrompt.js:95 | `input.pause()` stops input flowing. |
| SelectPrompt.Terminal.Listen | utils/SelectPrompt.js:84 | `input.on("keypress", ...)` attaches the handler. |
| SelectPrompt.GetPadding | utils/SelectPrompt.js:108-114 | The padding is all spaces: one for a number (which has no `length`), and one plus one per character for a string. |
| SelectPrompt.Session.constructor | utils/SelectPrompt.js:29-36 | A session starts with index 0, the first-drawing flag set and the promise pending. |
| SelectPrompt.Session.Start | utils/SelectPrompt.js:77-88 | The rest of `init` writes the question line, enters raw mode, resumes input, hides the cursor, listens for keypresses and draws the menu once. The resulting state is `Opened`. |
| SelectPrompt.Session.CreateOptionMenu | utils/SelectPrompt.js:38-57 | `createOptionMenu` erases the previous menu unless this is the first drawing, then writes the menu lines. This is the transition `Redraw`. |
| SelectPrompt.Session.Enter | utils/SelectPrompt.js:91-98 | `enter` performs the transition `Confirm`: it erases the menu and question, prints the choice, leaves raw mode, pauses, shows the cursor and resolves. |
| SelectPrompt.Session.Close | utils/SelectPrompt.js:100-106 | `close` performs the transition `Cancel`: it erases the menu, leaves raw mode, pauses, shows the cursor and rejects. |
| SelectPrompt.Session.KeyPressed | utils/SelectPrompt.js:59-75 | The handler performs exactly the `OnKey` transition on the session and terminal state. |
| SelectPrompt.Select | utils/SelectPrompt.js:8-27 | A bad argument rejects with `ValidationError` and leaves the terminal untouched. Otherwise the session is opened as `Opened` describes. |
| SelectPrompt.Replay | utils/SelectPrompt.js:59-75 | A sequence of keypresses keeps the index within the options. |
| SelectPrompt.NavigationWraps | utils/SelectPrompt.js:66-67 | "down" is +1 and "up" is −1, both modulo the number of options. Down from the last option gives the first, and up from the first gives the last. |
| SelectPrompt.DownPress | utils/SelectPrompt.js:66-68 | One "down" moves the index to the next option and leaves the outcome alone. |
| SelectPrompt.ReplayAppend | utils/SelectPrompt.js:59-75 | Replaying two key sequences in turn is replaying their concatenation. |
| SelectPrompt.DownRun | utils/SelectPrompt.js:66-68 | k presses of "down" that do not pass the last option move the index by k and settle nothing. |
| SelectPrompt.DownCycle | utils/SelectPrompt.js:66-68 | One "down" per option brings the index back to where it was. |
| SelectPrompt.UpFromFirst | utils/SelectPrompt.js:67 | "up" on the first option selects the last. |
| SelectPrompt.IgnoredKey | utils/SelectPrompt.js:60-62 | A key whose sequence is not one of the five accepted ones changes nothing and writes nothing. |
| SelectPrompt.SettledStays | utils/SelectPrompt.js:72-73 | Once the promise has settled, no keypress changes the outcome. |
| SelectPrompt.CursorVisibleAppend | utils/SelectPrompt.js:116-122 | Writes other than the hide and show controls leave the cursor's visibility as it was. |
| SelectPrompt.MenuWritesNotCursor | utils/SelectPrompt.js:45-55 | Every menu write starts with the padding space, so none is a cursor control. |
| SelectPrompt.EraseNotCursor | utils/SelectPrompt.js:43 | The erase of one or more lines is not a cursor control. |
| SelectPrompt.OpenedHidesCursor | utils/SelectPrompt.js:83-88 | After opening, the cursor is hidden. |
| SelectPrompt.NavigationStep | utils/SelectPrompt.js:65-69 | A navigation key sets the index and redraws, nothing more. |
| SelectPrompt.Navigation | utils/SelectPrompt.js:65-69 | After "down" or "up", the index is the wrapped neighbour. The menu is redrawn, preceded by an erase of one line per option except on the first drawing. Outcome, raw mode and flow are unchanged, and a hidden cursor stays hidden. |
| SelectPrompt.RedrawKeepsCursor | utils/SelectPrompt.js:38-57 | A redraw (optional erase, then the menu) leaves the cursor's visibility unchanged. |
| SelectPrompt.ReturnResolves | utils/SelectPrompt.js:91-98 | Return erases options + 1 lines, prints the question with the chosen name, leaves raw mode, pauses and shows the cursor. A pending promise resolves with the chosen option's value, not its name. |
| SelectPrompt.CancelRejects | utils/SelectPrompt.js:100-106 | Escape or ctrl-C erases the menu, leaves raw mode, pauses and shows the cursor. A pending promise is rejected with "Operation canceled". |
| SelectPrompt.MenuLineCount | utils/SelectPrompt.js:43-56 | With no line break in the pointer, names or descriptions, the menu occupies exactly one line per option, so the next erase of `options.length` lines removes all of it. |
| SelectPrompt.ScenarioDownThenReturn | utils/SelectPrompt.js:59-98 | With options Vite/vite and None/none, "down" then return resolves "none". |
| SelectPrompt.ScenarioUpThenReturn | utils/SelectPrompt.js:59-98 | With bare options yes/no/maybe, "up" then return resolves "maybe". |
| SelectPrompt.ScenarioEscape | utils/SelectPrompt.js:72-106 | Escape right after opening rejects with the cancellation message. |
| AppendToFile.SpliceStart | utils/AppendToFile.js:8 | The `splice` start always lies within the array: a negative start counts from the end and stops at 0, and a start past the end becomes the end. |
| AppendToFile.LineNumber | utils/AppendToFile.js:4 | `line \|\| 0`: a missing line number counts as 0. `AppendDefaultLine` states the consequence: the text becomes the second line. |
| AppendToFile.InsertionIndex | utils/AppendToFile.js:4-8 | `(line \|\| 0) + 1`, clamped as `splice` clamps it, is a valid insertion index. |
| AppendToFile.AppendedText | utils/AppendToFile.js:3-11 | `appendToFile`'s output: read back line by line, the output is the old lines with the replacement's lines inserted at the insertion index. |
| AppendToFile.AppendRoundTrip | utils/AppendToFile.js:3-11 | A one-line replacement adds exactly one line at the insertion index, and every old line keeps its place around it. Removing that line gives back the original text. |
| AppendToFile.AppendDefaultLine | utils/AppendToFile.js:4-8 | Without a line number the text becomes the second line. |
| AppendToFile.AppendPastEnd | utils/AppendToFile.js:7-9 | A line number at or past the last line appends the text after a newline. |
| AppendToFile.AppendNegativeLine | utils/AppendToFile.js:8 | A negative line number counts from the end, as `splice` does. |
| AppendToFile.Keys | utils/AppendToFile.js:18-25 | The object's keys: the i-th key is the i-th member's key. |
| AppendToFile.Get | utils/AppendToFile.js:16 | A property is present exactly when its key is among the keys. |
| AppendToFile.Put | utils/AppendToFile.js:18-25 | Object spread `{...o, k: v}` sets k to v and changes no other key. An existing key keeps its place, and a new key goes last. |
| AppendToFile.BuildPackageScripts | utils/AppendToFile.js:13-28 | It fails (the TypeError of `scripts.build`) exactly when `scripts` is missing or null. |
| AppendToFile.BuildPackageScriptsSpec | utils/AppendToFile.js:13-28 | Each bump script is `npm version <patch/minor/major> && ` followed by the old `build` text. Every other script and every other top-level key keeps its value, and the top-level keys keep their order. |
| AppendToFile.BumpScripts | utils/AppendToFile.js:18-23 | The spread `{...scripts, "build-patch": ..., "build-minor": ..., "build-major": ...}`. `BuildPackageScriptsSpec` states the values it stores and `BumpScriptsOrder` where new keys go. |
| AppendToFile.BumpScriptsOrder | utils/AppendToFile.js:18-23 | New bump scripts go after the old scripts, in the order patch, minor, major. |
| AppendToFile.ThreeNewKeys | utils/AppendToFile.js:18-23 | Three distinct new keys are appended in the order they are written. |
| AppendToFile.AddScriptSpec | utils/AppendToFile.js:30-42 | The script is stored under its name, and every other script and top-level key keeps its value. A package.json without `scripts` gets a `scripts` key, last, that holds only the new script. |
| AppendToFile.AddScriptToPackageJson | utils/AppendToFile.js:30-42 | `addScriptToPackageJson` on the parsed package.json. `AddScriptSpec` states what it stores, what it keeps and where a new `scripts` key goes. |
| AppendToFile.PutKeepsDistinct | utils/AppendToFile.js:35-38 | Object spread with one key keeps the keys of an object distinct, as `JSON.parse` gives them. |
| AppendToFile.PutExisting | utils/AppendToFile.js:35-38 | Re-adding a script with the value it already has changes nothing. |
| FileSystemCompleter.StartingWith | utils/FileSystemCompleter.js:15 | The filter keeps exactly the entries whose name starts with `base`, in their order. |
| FileSystemCompleter.Listable | utils/FileSystemCompleter.js:22 | The filter keeps exactly the files and directories, in their order. |
| FileSystemCompleter.Hit | utils/FileSystemCompleter.js:23 | One entry's completion: its path under the shown directory, with a trailing slash for a directory. `HitShape` states its form. |
| FileSystemCompleter.Shown | utils/FileSystemCompleter.js:18-20 | The directory as the hits show it: the root becomes "". `CompleteAtRoot` and `RootHit` state that hits at the root start with a single slash. |
| FileSystemCompleter.Descend | utils/FileSystemCompleter.js:12 | The directory listed after an exact directory match: `dir + base` at the root, `dir/base` elsewhere. `CompleteExactDirectory` states the listing. |
| FileSystemCompleter.Hits | utils/FileSystemCompleter.js:21-23 | There is one hit per file or directory entry. |
| FileSystemCompleter.Complete | utils/FileSystemCompleter.js:4-27 | The line is always handed back unchanged. |
| FileSystemCompleter.HitsMembership | utils/FileSystemCompleter.js:21-23 | A string is a hit exactly when it is the completion of a file or directory entry. |
| FileSystemCompleter.HitShape | utils/FileSystemCompleter.js:23 | A file completes to `dir/name`. A directory completes to its path with exactly one trailing slash. |
| FileSystemCompleter.CompleteUnreadable | utils/FileSystemCompleter.js:26 | A directory that cannot be read completes to nothing. |
| FileSystemCompleter.CompletePrefix | utils/FileSystemCompleter.js:15-24 | Without an exact directory match, the hits are exactly the files and directories whose names start with `base`. |
| FileSystemCompleter.CompleteExactDirectory | utils/FileSystemCompleter.js:11-14 | An exact directory match lists that directory's contents, whatever their names, or nothing when it cannot be read. |
| FileSystemCompleter.CompleteAtRoot | utils/FileSystemCompleter.js:18-23 | At the root, every hit is a single slash followed by the name of a matching entry. |
| FileSystemCompleter.RootHit | utils/FileSystemCompleter.js:18-23 | With `dir` shown as "", every hit starts with "/" followed by an entry's name. |
| FileSystemCompleter.HitAtRoot | utils/FileSystemCompleter.js:18-23 | An entry's hit under "" starts with "/" followed by its name. |
| WorkflowTemplate.Capitalize | filesTemplate/workflowTemplate.js:45 | The display name has the same length and the same characters after the first. The first character is upper-cased as an ASCII letter (see Left out). |
| WorkflowTemplate.CapitalizeSpec | filesTemplate/workflowTemplate.js:45 | For ASCII input: only a lower-case first letter changes, to its capital, and every other character is kept. Non-ASCII first letters are not upper-cased by the model (see Left out). |
| WorkflowTemplate.StepBlocksSplit | filesTemplate/workflowTemplate.js:14-24 | The step blocks split into an empty line, then seven lines per app in the apps' order. |
| WorkflowTemplate.OutputBlocksSplit | filesTemplate/workflowTemplate.js:26-33 | The output blocks split into an empty line, then five lines per app in the apps' order. |
| WorkflowTemplate.CheckAppVersionJob | filesTemplate/workflowTemplate.js:4-35 | The `check-version` job text. `StepBlocksSplit`, `OutputBlocksSplit`, `CheckStepsPerApp` and `CheckOutputsPerApp` state its per-app steps and outputs. |
| WorkflowTemplate.BuildJob | filesTemplate/workflowTemplate.js:38-82 | One app's `build-<app>` job text. `BuildJobText`, `BuildJobHead`, `BuildJobBuildable` and `BuildJobNotBuildable` state its lines. |
| WorkflowTemplate.CheckStepsPerApp | filesTemplate/workflowTemplate.js:14-24 | App i's step has the name line, the `check-<app>` id, the `EndBug/version-check@v2.1.5` action and `./<app>/package.json`, at lines 1 + 7i onward. |
| WorkflowTemplate.CheckOutputsPerApp | filesTemplate/workflowTemplate.js:26-33 | App i's outputs `-changed`, `-commit` and `-version` read the outputs of step `check-<app>`, at lines 1 + 5i onward. |
| WorkflowTemplate.BuildJobText | filesTemplate/workflowTemplate.js:38-82 | The job text is its lines joined by newlines. The optional build steps sit between the head and the deploy step. |
| WorkflowTemplate.JoinOptional | filesTemplate/workflowTemplate.js:57-70 | The conditional `${buildable ? ... : ""}` joins head, optional middle and tail with newlines. |
| WorkflowTemplate.BuildJobHead | filesTemplate/workflowTemplate.js:41-45 | The job key is `build-<app>`. It runs only when the version check found the app changed. Its display name is capitalised. |
| WorkflowTemplate.BuildJobBuildable | filesTemplate/workflowTemplate.js:57-76 | A buildable app's job has 41 lines. It creates the env file from `<APP>_ENV_FILE`, installs, runs the build and deploys `./<app>/dist/` to `DEPLOY_<APP>_PATH`. |
| WorkflowTemplate.BuildJobNotBuildable | filesTemplate/workflowTemplate.js:57-76 | A non-buildable app's job has 31 lines. It goes straight from the head to the deploy step and deploys `./<app>/`. |
| Strings.Split | commands/create.js:83 | `split` with a one-character separator is never empty. |
| Strings.SplitAppend | commands/create.js:83-91 | Splitting a text with a separator in the middle splits the two sides. |
| Strings.JoinSplit | utils/AppendToFile.js:7-9 | Joining the parts of a split with the same separator gives the text back. |
| Strings.SplitJoin | utils/AppendToFile.js:7-9 | Splitting a join of parts free of the separator gives the parts back. |
| Strings.Join | utils/AppendToFile.js:9 | `parts.join(sep)`. `JoinSplit` and `SplitJoin` prove it the inverse of `split`. |
| Strings.NatText | commands/create.js:128 | `String(port)` is a non-empty string of decimal digits, without leading zero, that denotes the port. |
| Strings.ToUpper | filesTemplate/workflowTemplate.js:62 | `toUpperCase` on ASCII text: upper-cases each ASCII letter in place and keeps the length (see Left out). |
| Strings.LiteralPattern | commands/create.js:207-209 | A regular expression with no special characters matches its own characters one by one. |
| Strings.FindFrom | commands/create.js:127-136 | The search finds the leftmost match at or after `from`, or reports that there is none. |
| Strings.ReplaceFirstSpec | commands/create.js:127-136 | `replace` without the `g` flag leaves a text with no match unchanged. Otherwise it replaces the leftmost match only and keeps the rest as it was. |
| Strings.ReplaceFirst | commands/create.js:127-136 | `replace` without the `g` flag. `ReplaceFirstSpec` states that it replaces the leftmost match only, and changes nothing without a match. |
| Plans.Outcome | commands/create.js:55-68 | Among the modelled steps, only one that touches the file system or runs a command can reject, and it rejects exactly when the world says it fails. Questions always get an answer (see Left out). |
| Plans.Truthy | commands/create.js:43 | JavaScript truthiness of a command-line value: a bare flag or a non-empty text. It decides whether the path is asked for, as `CreateNamed` and `AddNamed` follow. |
| Plans.PathExists | commands/create.js:56 | `existsSync` on the value: only a text in the world's existing paths exists; `true` never does. `CreateMissingPath` and `AddMissingPath` state the consequence. |
| Plans.ArgText | commands/create.js:57 | The value as the error message's template literal shows it: `null`, `true` or the text. |
| Plans.ErrorSteps | commands/create.js:223-234 | `handleError` prints `\n❌ <reason>`, removes `path` when it is non-empty and never otherwise, and ends with the exit of the `close` handler. |
| Plans.BlockSucceeds | commands/create.js:173-189 | A `try` block in which no step rejects performs every step, and the process goes on. |
| Plans.BlockFails | commands/create.js:173-189 | When step k is the first to reject, steps 0..k are performed and then `handleError` with its message ends the process. |
| Plans.Block | commands/create.js:173-189 | A `try` block of awaited steps with its `catch`. `BlockSucceeds`, `BlockFails` and `BlockFinished` state its traces, and `Shell.RunBlock` proves the loop performs it. |
| Plans.ErrorStepsFinished | commands/create.js:223-234 | `handleError` ends the process once, as its last step. |
| Plans.FinishedAfter | commands/create.js:223-234 | Steps without an exit followed by a finished trace form a finished trace. |
| Plans.BlockFinished | commands/create.js:173-189 | A block either ends the process once, as its last step, or does not exit at all. |
| Plans.NormaliseName | commands/create.js:36 | `replace(/\s/g, "_")` maps each JavaScript whitespace character to "_" and keeps every other character in place. |
| Plans.NormaliseNameIdempotent | commands/create.js:36 | A normalised name holds no whitespace, and normalising it again changes nothing. |
| Plans.NormalisedValid | commands/create.js:36-41 | A raw name is accepted exactly when it is non-empty and made of letters, digits, `_`, `-` and whitespace. |
| Plans.ValidName | commands/create.js:38 | `/^[a-zA-Z0-9_-]+$/.test(name)`. `NormalisedValid` states which raw names pass after normalisation. |
| Plans.DefaultPath | commands/create.js:43-53 | "." and "" become "./", and any other answer is kept. |
| Plans.DefaultPathIdempotent | commands/create.js:47-51 | Applying the default twice is applying it once, and "." and "" are treated alike. |
| Plans.ReplaceFirstNoMatch | commands/create.js:127-136 | A `package.json` without the pattern is written back unchanged. |
| Plans.ViteScriptsNoMatch | commands/create.js:126-138 | A `package.json` lacking the dev, build and lint scripts is written back unchanged. |
| Plans.ParentScriptsNoMatch | commands/create.js:205-212 | A `package.json` without the default `test` script is written back unchanged. |
| Plans.ParentScriptsPlacement | commands/create.js:205-212 | The parent scripts, joined by a newline and four spaces, replace the leftmost `test` script and nothing else. |
| Plans.ApplyEdit | commands/create.js:126-136 | The new package.json text after an edit, each `replace` hitting the leftmost match only. `DevScriptPlacement`, `ParentScriptsPlacement`, `ViteScriptsNoMatch` and `ParentScriptsNoMatch` state its effect. |
| Plans.DevScriptPlacement | commands/create.js:128 | The leftmost `"dev": "vite"` becomes `vite --open --port <port>` in place. |
| Plans.ViteSteps | commands/create.js:108-150 | Vite scaffolding is ten fallible steps and never exits. It starts with `npm create vite@latest <folder> -- --template <t>` in the parent, and the sixth step edits the package.json scripts with the app's port. |
| Plans.PlainSteps | commands/create.js:155-164 | A plain app's steps can each fail and never exit. |
| Plans.Shell.constructor | commands/create.js:26 | A fresh process has an empty trace and has not exited. |
| Plans.Shell.Perform | commands/create.js:55-68 | Performing a step appends it to the trace and reports its rejection from the world. |
| Plans.Shell.Close | commands/create.js:232-234 | `rl.close()` appends the exit and ends the process. |
| Plans.Shell.HandleError | commands/create.js:223-230 | `handleError` appends exactly `ErrorSteps(reason, path)` and ends the process. |
| Plans.Shell.RunBlock | commands/create.js:173-189 | The loop over a `try` block's awaited steps appends exactly `Block(...).steps` and ends the process exactly when the block does. |
| CreateCommand.ScanDead | commands/create.js:74 | Once the subfolder matcher has failed it stays failed. |
| CreateCommand.ValidFolders | commands/create.js:74 | The subfolder regular expression's `test`, as a scanning automaton. `FolderGrammar.ValidFoldersGrammar` proves it accepts exactly the answers the expression describes. |
| CreateCommand.ScanRejects | commands/create.js:74 | A character outside the subfolder alphabet makes the whole answer invalid. |
| CreateCommand.ValidFoldersAlphabet | commands/create.js:74 | A valid answer holds only letters, `-`, `(`, `)` and whitespace. In particular it holds no `$`, so the `replace` calls never see a `$` pattern. |
| CreateCommand.ValidFoldersAccepts | commands/create.js:74 | `a(vite) b` and the empty answer are valid. |
| CreateCommand.ValidFoldersRejects | commands/create.js:74 | A leading space, a digit and an unclosed parenthesis are each rejected. |
| FolderGrammar.ValidFoldersGrammar | commands/create.js:74 | The automaton accepts an answer if and only if it is a sequence of items `name(-name)?`, an optional `(env(-env)?)` and any whitespace, as the regular expression reads. |
| FolderGrammar.ItemsAccepted | commands/create.js:74 | Every answer the grammar describes is accepted by the automaton. |
| FolderGrammar.ScanInvariant | commands/create.js:74 | Each state of the automaton tells what the text read so far is: complete items, or items followed by the part of a name or environment the state stands for. |
| FolderGrammar.AcceptedItems | commands/create.js:74 | In an accepting state the text read so far is a sequence of items. |
| FolderGrammar.ItemScan | commands/create.js:74 | One item read from an accepting state leaves the automaton in an accepting state. |
| FolderGrammar.ScanAppend | commands/create.js:74 | Scanning a concatenation is scanning its two parts in turn. |
| CreateCommand.MapToken | commands/create.js:86-91 | A token's folder holds no "(". Its path is `<project>/<folder>`, and its port is 3000 plus its position. |
| CreateCommand.MapFolders | commands/create.js:86-91 | `foldersArray.map` gives one subfolder per token, in order. |
| CreateCommand.MapBareToken | commands/create.js:87-90 | A token without "(" is a folder without a development environment. |
| CreateCommand.SplitEnvToken | commands/create.js:87-88 | `folder(env)` splits at "(" into the folder and `env)`. |
| CreateCommand.DropCloseParen | commands/create.js:88 | `replace(")", "")` on `env)` gives `env`. |
| CreateCommand.MapEnvToken | commands/create.js:86-91 | `folder(env)` is the folder `folder` with development environment `env`. |
| CreateCommand.PortsIncreasing | commands/create.js:90 | Ports follow token order, strictly increasing and one apart. |
| CreateCommand.TrailingSpaceEmptyFolder | commands/create.js:83-91 | A trailing space makes a last subfolder with an empty name whose path is the project folder followed by "/". |
| CreateCommand.ParentScriptsOrder | commands/create.js:193-203 | One run script per subfolder in order (`npm run dev` for a subfolder with an environment, `node index.js` otherwise), then the lint, format and check scripts. |
| CreateCommand.RunScript | commands/create.js:193-196 | One subfolder's run script. `ParentScriptsOrder` states its two forms. |
| CreateCommand.ParentScriptLines | commands/create.js:193-203 | The parent scripts array. `ParentScriptsOrder` states its order and contents. |
| CreateCommand.Create | commands/create.js:26-221 | Running `create` step by step appends exactly `CreatePlan` to the trace and ends the process. |
| CreateCommand.CreateNamed | commands/create.js:36-53 | From the normalised name on, the run appends exactly `NamedPlan` and ends the process. |
| CreateCommand.CreateProject | commands/create.js:55-72 | From the project path on, the run appends exactly `ProjectPlan` and ends the process. |
| CreateCommand.CreateSubfolders | commands/create.js:74-91 | From the subfolder answer on, the run appends exactly `SubfoldersPlan` and ends the process. |
| CreateCommand.CreateFolders | commands/create.js:93-169 | The subfolder loop appends exactly `FoldersRun`'s steps and ends the process exactly when it does. |
| CreateCommand.CreateFolder | commands/create.js:94-168 | One loop round appends exactly `FolderRun`'s steps and ends the process exactly when it does. |
| CreateCommand.CreateFinish | commands/create.js:171-221 | After the loop, the Biome block, the scripts edit and the success line are appended exactly as `FinishPlan` says, and the process ends. |
| CreateCommand.FoldersRunSnoc | commands/create.js:93-169 | The loop up to subfolder i + 1 is the loop up to i followed by round i. |
| CreateCommand.FoldersRunStops | commands/create.js:101-105 | Once a subfolder ends the process, later subfolders are never touched. |
| CreateCommand.FinishedSeq | commands/create.js:93-221 | A settled run followed, unless it ended, by a finished tail is finished. |
| CreateCommand.BlockSettled | commands/create.js:98-168 | A block is settled: it is finished if it ended, and exit-free otherwise. |
| CreateCommand.FolderRunSettled | commands/create.js:98-168 | One loop round is settled. |
| CreateCommand.FoldersRunSettled | commands/create.js:93-169 | The whole loop is settled. |
| CreateCommand.SubfoldersPlanFinished | commands/create.js:74-221 | From the subfolder answer on, the process ends exactly once, at the end. |
| CreateCommand.LocatedPlanFinished | commands/create.js:55-221 | From the path on, the process ends exactly once, at the end. |
| CreateCommand.CreateTerminates | commands/create.js:26-234 | Every run of `create` ends the process exactly once, as its last step, provided every `RunCommand` step settles (see Left out). |
| CreateCommand.NamedPlanMissingPath | commands/create.js:55-58 | With a valid name and a missing path, only the path question precedes `handleError`. |
| CreateCommand.CreateInvalidName | commands/create.js:38-41 | An invalid name prints the error and exits before anything on disk is touched. |
| CreateCommand.CreateMissingPath | commands/create.js:55-58 | A parent path that does not exist prints the error and exits before anything is created. A bare `-p` flag never exists. |
| CreateCommand.CreateUnsupportedDevEnv | commands/create.js:99-106 | An unknown development environment, reached after the earlier subfolders were made, prints the error, removes the project folder and exits. No later subfolder is touched. |
| CreateCommand.CreatePlainFolder | commands/create.js:155-164 | When nothing rejects, a subfolder without an environment gets its folder, `npm init -y` and an `index.js` naming it. |
| CreateCommand.FoldersRunCompletes | commands/create.js:93-169 | In any world where every subfolder is supported and none of its steps rejects, the loop goes through all subfolders without ending the process. |
| CreateCommand.CreateCompletes | commands/create.js:171-221 | In any world where every subfolder succeeds and neither the Biome block nor the scripts edit rejects, `create` edits the parent scripts, prints the success line and exits. |
| CreateCommand.CreateSucceeds | commands/create.js:26-221 | From the input: with a valid name, an existing path, a project folder that can be made, a valid subfolder answer whose subfolders all succeed, and no rejection in the Biome block or the scripts edit, `create` makes the project folder and ends with the scripts edit, the success line and the exit. |
| CreateCommand.CreatePlan | commands/create.js:26-221 | The whole trace of `create` in a given world. `Create` proves the step-by-step run appends it. `CreateTerminates`, `CreateInvalidName`, `CreateMissingPath`, `CreateUnsupportedDevEnv` and `CreateSucceeds` state its properties. |
| CreateCommand.FolderRun | commands/create.js:94-168 | One loop round, chosen by the development environment: the plain steps, the vite steps, or `handleError` removing the project. `CreateFolder`, `FolderRunSettled`, `CreatePlainFolder` and `CreateUnsupportedDevEnv` state it. |
| CreateCommand.FoldersRun | commands/create.js:93-169 | The subfolder loop, up to the first round that ends the process. `FoldersRunSnoc`, `FoldersRunStops`, `FoldersRunSettled` and `FoldersRunCompletes` state it. |
| CreateCommand.BiomeSteps | commands/create.js:171-189 | The Biome block: install Biome, copy `biome.json` and `.gitignore`, write the README, migrate. `CreateFinish` and `CreateCompletes` state where it runs. |
| CreateCommand.ScriptsPlan | commands/create.js:205-220 | The parent scripts edit, then the success line and `rl.close()`. `CreateCompletes` and `ParentScriptsPlacement` state its effect. |
| AddCommand.Add | commands/add.js:12-146 | Running `add` step by step appends exactly `AddPlan` to the trace and ends the process. |
| AddCommand.AddNamed | commands/add.js:20-36 | From the normalised name on, the run appends exactly `NamedPlan` and ends the process. |
| AddCommand.AddLocated | commands/add.js:38-65 | From the settled path on, the run appends exactly `LocatedPlan` and ends the process. |
| AddCommand.AddApp | commands/add.js:67-145 | The environment dispatch appends exactly `EnvPlan` and ends the process. |
| AddCommand.FinishFinished | commands/add.js:139-145 | A block followed, unless it ended, by the success line and `rl.close()` is finished. |
| AddCommand.EnvPlanFinished | commands/add.js:54-145 | The environment dispatch ends the process exactly once, at the end. |
| AddCommand.LocatedPlanFinished | commands/add.js:38-145 | From the path checks on, the process ends exactly once, at the end. |
| AddCommand.AddTerminates | commands/add.js:12-155 | Every run of `add` ends the process exactly once, as its last step, provided every `RunCommand` step settles (see Left out). |
| AddCommand.AddMissingName | commands/add.js:13-18 | Without a name, `null.replace` throws, and the `catch` prints the TypeError and exits. |
| AddCommand.ErrorOnly | commands/add.js:148-155 | `handleError` without a path prints and exits, touching nothing. |
| AddCommand.AddInvalidName | commands/add.js:20-24 | An invalid app name prints the error and exits before anything is touched. |
| AddCommand.AddMissingPath | commands/add.js:38-41 | A parent path that does not exist prints the error and exits before anything is touched. A bare `-p` flag never exists. |
| AddCommand.AddExistingApp | commands/add.js:43-46 | An app folder that already exists prints the error and exits. The existing folder is not removed. |
| AddCommand.AddUnsupportedEnv | commands/add.js:67-71 | An environment other than "none" and "vite", including a bare `-e` flag, prints the error, removes the app folder and exits. |
| AddCommand.AddPlainApp | commands/add.js:124-141 | With environment "none" and nothing rejecting, `add` runs: the folder, `npm init -y`, an `index.js` naming the app, the success line, exit. |
| AddCommand.AddViteApp | commands/add.js:73-141 | With environment "vite" and nothing rejecting, the framework is asked for and vite runs in the parent with that framework as template. The dev script gets port 3000, and the command ends with the success line. |
| AddCommand.AddPlan | commands/add.js:12-146 | The whole trace of `add` in a given world. `Add` proves the step-by-step run appends it. `AddTerminates`, `AddMissingName`, `AddInvalidName`, `AddMissingPath`, `AddExistingApp`, `AddUnsupportedEnv`, `AddPlainApp` and `AddViteApp` state its properties. |
| AddCommand.EnvPlan | commands/add.js:54-145 | The dispatch on the development environment. `AddApp` proves the run appends it; `EnvPlanFinished`, `AddUnsupportedEnv`, `AddPlainApp` and `AddViteApp` state it. |

## Left out

- Terminal I/O beyond the writes: colours (chalk) are treated as absent, so styled text is plain text. The loader animation (`startAnimation`, `setMessage`, `stopAnimation`) is not modelled.
- `emitKeypressEvents` and the keypress listener are not modelled. The prompt never detaches its listener, and the model only records that one was attached.
- The default pointer is modelled as the two characters the source file holds (U+00E2 U+00AF). These look like a mis-encoded "❯", but that is kept as written.
- `path.parse` is not modelled: the completer takes the line's `dir` and `base` as inputs. `readdir` is a map from readable directories to their entries.
- `JSON.parse` and `JSON.stringify` are not modelled. The package.json edits work on the parsed members, and their file reads and writes are left to the caller.
- AppendToFile.Get: a parsed object is a list of members whose keys are taken to be distinct, as `JSON.parse` makes them. A list with a repeated key is outside the convention: `Get` reads the first value, while `JSON.parse` keeps the last value at the first key's place.
- AppendToFile.Put: JavaScript puts integer-like keys before other keys whatever their insertion order, which is not modelled. A `scripts` value that is an array is not modelled either.
- Strings.ToUpper: upper-cases ASCII letters only, not the whole of Unicode. JavaScript's `toUpperCase` also maps letters such as "é" to "É", and can lengthen the text ("ß" becomes "SS"), so `|r| == |s|` holds only for the ASCII model.
- WorkflowTemplate.Capitalize: upper-cases an ASCII first letter only. In the source, `charAt(0).toUpperCase()` also upper-cases a non-ASCII first letter ("élan" becomes "Élan"), and a first "ß" becomes "SS", one character longer. The length clause holds only for the model.
- WorkflowTemplate.CapitalizeSpec: "only a lower-case ASCII first letter changes" describes the model. For the source it holds only when the first character is ASCII.
- `replace` is modelled for regular expressions made of literal characters and `.`, which covers every pattern the commands use. A replacement holding `$` patterns is not modelled. The subfolder answer cannot contain `$` (`ValidFoldersAlphabet`), and the app name is validated before it reaches a replacement.
- Plans.Outcome: the file system and the child processes are an oracle, a map from each fallible step to its rejection message. Two identical steps therefore fail identically. `runCommandOnFolder`, `createDirectory` and the `fs` calls themselves (`cli_commands.js`) are not part of this model.
- Plans.Outcome: a question that ends without an answer is not modelled. Every `Ask` step gets an answer here. In the source, a question can end the run in two ways:
  - `selectList` (`utils/InquirerPrompts.js:5-7`) rejects when the user cancels it, for example with Ctrl-C. In `add`, that rejection reaches the `catch` at `commands/add.js:142-144`, which prints it, removes the app folder and exits.
  - `promisifyQuestion` reads from readline. Ctrl-D on an empty line closes the interface, and its `close` handler exits the process (`commands/create.js:232-234`, `utils/PromisifyInput.js:18-20`). The run then ends right after the question, without an error line.
- Plans.ErrorSteps: an error thrown by `rmSync` inside `handleError` is not modelled. The removal is a step that always completes.
- The answers of `selectList` (`utils/InquirerPrompts.js`) and of `promisifyQuestion` are inputs. Any string is allowed, and the menus' fixed choices are not enforced.
- The command wiring (`index.js`, `commands/Commands.js`) is not part of this model. Neither are `utils/TerminalLoaderIndicator.js` or the vite and biome template files.
- Concurrency and hanging are not modelled. The model's traces are sequential: each step settles before the next one starts. The source does not guarantee that for `RunCommand`. `runCommandOnFolder` (`cli_commands.js:19-41`) spawns a detached child. It resolves on the child's first stdout chunk and rejects on its first stderr chunk or on an `error` event. Nothing settles it when the child exits. So the next step can start while the child is still working (an `npm install` still writing `node_modules`, say), and a child that writes nothing leaves the command waiting forever.
- CreateCommand.CreateTerminates: assumes that every `RunCommand` step settles, and only after its work is done. Under that assumption every run ends the process exactly once. A child that never writes to stdout or stderr is outside it.
- AddCommand.AddTerminates: the same assumption as `CreateTerminates`, for `add`'s `RunCommand` steps.
