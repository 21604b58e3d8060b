# rebake — a Dafny model of `rebake update` and `rebake check`

rebake keeps a project generated from a cookiecutter template in step with that template.
The project's `.cruft.json` records the template's URL, the commit it was generated from, the
answers given to the template's variables, an optional branch (`checkout`) and a `skip` list.

`rebake update` (`run_update`) works in four phases:

1. It refuses a project with uncommitted changes.
2. It loads the record and resolves the template's head commit, by `git ls-remote` with a
   shallow-clone fallback.
3. Inside a temporary directory it clones the template at the recorded commit and at the head,
   finds the variables the new template added and asks for them, then renders both versions
   with the same merged answers and diffs the two renderings.
4. It applies the diff to the project with `git apply`, falling back to `--reject`, and saves
   the record, now at the head commit with the merged answers.

`rebake check` (`is_up_to_date`) compares the recorded commit with the head.

The model has these modules:

- `Base`: `Option`, `Result` and the exceptions the program raises.
- `Text`: the Python `str` operations used (`strip`, the first line, the first tab field,
  `replace`).
- `Json`: JSON values. A Python dict is an insertion-ordered sequence of entries.
- `Paths`: `pathlib` paths as their parts.
- `Config`: `CruftConfig.load` and `save`.
- `Variables`: detecting and prompting for new variables.
- `Git`: the git gateway. Every function returns its result together with the commands it ran.
- `Check`: `is_up_to_date`.
- `Update`: the run as a chain of stage functions (`Update.Run`), and the class
  `Update.Project`. Its methods take the same steps in the imperative form of the source, on
  the project's record, and each is proved equal to its stage function.
- `UpdateOrder`, `UpdateSteps` and `UpdateOutcome`: what a whole run promises.

The foreign tools are oracles:

- `subprocess.run` is a function from a command to its exit code and output.
- Reading `cookiecutter.json`, cookiecutter's rendering and its interactive prompt are the
  function fields of `Update.Tools`.

A run logs one event per step it takes. The properties are stated over that log and over the
record the run leaves behind.

## Model

| member | source | states |
|---|---|---|
| Text.Strip | src/rebake/utils/git.py:75 | `str.strip()`: the result is empty exactly when the text is all whitespace, and otherwise neither begins nor ends with whitespace |
| Text.StripIsMiddle | src/rebake/utils/git.py:75 | what `strip` keeps is a slice of the text with nothing but whitespace before and after it |
| Text.TrimmedMiddle | src/rebake/utils/git.py:75 | trimming the front and then the back leaves a slice of the text with only whitespace around it |
| Text.TrimStart | src/rebake/utils/git.py:23 | leading `strip`: the result is a suffix of the input, everything dropped is whitespace, and the result starts with non-whitespace |
| Text.TrimEnd | src/rebake/utils/git.py:23 | trailing `strip`: the result is a prefix of the input, everything dropped is whitespace, and the result ends with non-whitespace |
| Text.StripKeepsSolidHead | src/rebake/utils/git.py:23-25 | stripping text that starts with a whitespace-free word keeps that word whole at the front |
| Text.LineBreakIsSpace | src/rebake/utils/git.py:23 | every character at which `splitlines` breaks is whitespace to `strip` |
| Text.UpTo | src/rebake/utils/git.py:23-25 | the longest prefix holding no stop character; the next character, if any, is a stop character |
| Text.UpToAppend | src/rebake/utils/git.py:25 | a prefix free of stop characters passes through `UpTo` unchanged |
| Text.ReplaceAllAbsent | src/rebake/utils/git.py:169 | `replace` leaves text without the pattern unchanged |
| Text.ReplaceAll | src/rebake/utils/git.py:169 | `s.replace(pat, rep)`: every non-overlapping occurrence, scanned from the left, is replaced; its properties are ReplaceAllAbsent and ReplaceAllDeletes |
| Text.ReplaceAllDeletes | src/rebake/utils/git.py:169 | deleting a pattern never lengthens the text |
| Json.Keys | src/rebake/update.py:57 | the dict's keys in insertion order, one per entry |
| Json.Get | src/rebake/config.py:29-31 | `d.get(k)` is present exactly when `k` is a key, and then it is that key's value |
| Json.Replace | src/rebake/update.py:89 | overwriting a present key keeps the key order and changes only that key's value |
| Json.Set | src/rebake/update.py:89 | `d[k] = v`: `k` now maps to `v`, every other key is unchanged, a new key goes last, and keys stay unique |
| Json.Merge | src/rebake/update.py:57 | `{**a, **b}`: the entries of `a`, then each entry of `b` set in turn; its properties are MergeKeys, MergeKeepsOrder, MergeGet and MergeUnique |
| Json.MergeKeys | src/rebake/update.py:57 | `{**a, **b}` holds exactly the keys of `a` and of `b` |
| Json.MergeKeepsOrder | src/rebake/update.py:57 | `{**a, **b}` keeps the keys of `a` first, in their order |
| Json.MergeGet | src/rebake/update.py:57 | on a key of `b` the merge holds `b`'s value, on any other key `a`'s |
| Json.MergeUnique | src/rebake/update.py:57 | merging keeps keys unique |
| Paths.PathStr | src/rebake/utils/git.py:54 | `str(path)`: the root, then the components joined by "/"; ParsePathStr proves it reads back as the same path |
| Paths.Segments | src/rebake/utils/git.py:87 | splitting at "/" gives a non-empty list of separator-free segments |
| Paths.Components | src/rebake/utils/git.py:87 | only proper path components are kept |
| Paths.ParsePath | src/rebake/utils/git.py:87 | `Path(s).parts` is always well formed: an optional root, then components |
| Paths.SegmentsJoin | src/rebake/utils/git.py:87 | splitting the "/"-join of separator-free parts gives the parts back |
| Paths.ParseAbsolute | src/rebake/utils/git.py:87 | an absolute path reads back as the root followed by its components |
| Paths.ParsePathStr | src/rebake/utils/git.py:87 | parsing `str(p)` of a well-formed path gives back `p` |
| Paths.RelativeTo | src/rebake/utils/git.py:102 | `relative_to` succeeds exactly when the base is a leading part of the path and is not the empty (relative) path under an absolute path; then base + result is the path |
| Config.StrArray | src/rebake/config.py:43-44 | the JSON list written for `skip` holds each name, in order |
| Config.StrList | src/rebake/config.py:31 | a JSON list reads back as strings exactly when every item is a string, item by item |
| Config.ContextOf | src/rebake/config.py:29 | `data.get("context", {})`: `{}` when absent, the object when it is one, TypeMismatch otherwise |
| Config.CheckoutOf | src/rebake/config.py:30 | `data.get("checkout")`: None when absent or null, the branch when it is a string, TypeMismatch otherwise |
| Config.SkipOf | src/rebake/config.py:31 | `data.get("skip", [])`: `[]` when absent, the names when it is a list of strings, which is exactly what `save` writes for them; TypeMismatch otherwise |
| Config.Fields | src/rebake/config.py:26-32 | the record is built exactly when `template` and `commit` are strings and the other three entries read; the record holds those values; `template` is checked first, then `commit` |
| Config.Load | src/rebake/config.py:20-32 | a missing file raises FileNotFoundError; a missing `template` or `commit` raises KeyError, `template` first; a `template` that is not a string is refused; on success both come from the file, and `context`, `checkout` and `skip` default to `{}`, None and `[]` |
| Config.Required | src/rebake/config.py:36-40 | the three entries always written: exactly template, commit and context, in that order, with neither `checkout` nor `skip` |
| Config.SetIfPresent | src/rebake/config.py:41-44 | an optional entry is written only when there is a value, no other entry changes and no other key appears |
| Config.Save | src/rebake/config.py:34-45 | the record written has unique keys and holds template, commit and context; `checkout` only when it is not None; `skip` only when it is not empty |
| Config.SaveKeys | src/rebake/config.py:34-45 | `save` writes no key besides template, commit, context, checkout and skip |
| Config.SaveData | src/rebake/config.py:34-44 | the step-by-step construction of `save` writes exactly `Save` |
| Config.StrListStrArray | src/rebake/config.py:31 | a list of strings written out reads back unchanged |
| Config.CheckoutRoundTrip | src/rebake/config.py:30 | the `checkout` entry `save` writes, or leaves out, loads back as the same branch |
| Config.SkipRoundTrip | src/rebake/config.py:31 | the `skip` entry `save` writes, or leaves out, loads back as the same list |
| Config.LoadSavedEntries | src/rebake/config.py:20-45 | any record holding exactly the entries `save` writes loads back as the same configuration |
| Config.LoadSave | src/rebake/config.py:20-45 | `load` after `save` gives back the same record |
| Variables.DetectNew | src/rebake/utils/variables.py:18 | a key is kept exactly when the manifest has it, the saved answers lack it and it is not private; values and order are the manifest's |
| Variables.DetectNewKeysOnly | src/rebake/utils/variables.py:18 | only the keys of the saved answers matter, not their values |
| Variables.DetectNewCovered | src/rebake/utils/variables.py:18 | when the saved answers cover every manifest key, nothing is new |
| Variables.DetectNewVariables | src/rebake/utils/variables.py:10-18 | fails exactly when `cookiecutter.json` is missing or not a JSON object; otherwise it gives the new variables of that manifest |
| Variables.PromptNewVariables | src/rebake/utils/variables.py:21-31 | succeeds exactly when cookiecutter's prompt, asked with `{"cookiecutter": new_vars}`, returns; the answers are the prompt's, and an abort is reported as such |
| Variables.DetectSkipsPrivateExample | src/rebake/utils/variables.py:18 | on a manifest with an answered, a private and a new variable, only the new one is asked for |
| Git.Checked | src/rebake/utils/git.py:17-22 | `check=True`: the call succeeds exactly when the exit code is 0; otherwise it raises CalledProcessError with the arguments and the code |
| Git.Ref | src/rebake/utils/git.py:15 | `checkout or "HEAD"`: the branch when it is neither None nor empty, otherwise HEAD |
| Git.ParseLsRemote | src/rebake/utils/git.py:23-25 | no value exactly when the output is blank; otherwise the first field of the first line of the stripped output |
| Git.LsRemoteFirstField | src/rebake/utils/git.py:23-25 | an ls-remote line `<hash>\t<ref>` yields the hash |
| Git.CloneArgs | src/rebake/utils/git.py:35-38 | a shallow clone into the scratch directory; `--branch` only when the branch is truthy |
| Git.CommitViaClone | src/rebake/utils/git.py:33-48 | clones, and runs `rev-parse HEAD` in the clone only if the clone succeeded; succeeds exactly when both exit 0, with the stripped hash |
| Git.HeadCommit | src/rebake/utils/git.py:8-30 | ls-remote always comes first; the clone fallback runs exactly when ls-remote fails or prints only whitespace; otherwise the result is the parsed first hash |
| Git.HeadCommitReadOnly | src/rebake/utils/git.py:8-48 | a head lookup runs only ls-remote, the shallow clone and `rev-parse` in the scratch clone |
| Git.HeadFromLsRemote | src/rebake/utils/git.py:17-25 | a remote answering `<hash>\t...` yields that hash, and no clone is made |
| Git.CloneAtCommit | src/rebake/utils/git.py:51-63 | a full clone into the destination, then a checkout of the commit inside it only if the clone succeeded; succeeds exactly when both exit 0 |
| Git.IsWorkingTreeClean | src/rebake/utils/git.py:66-75 | runs `git status --porcelain` in the project; clean exactly when the output is blank |
| Git.GitRoot | src/rebake/utils/git.py:78-87 | the worktree root git prints, parsed as a well-formed path |
| Git.Apply | src/rebake/utils/git.py:103-122 | each apply attempt runs from the root, with `--directory` set to the project's place in it, and is fed the patch; `--reject` exactly when asked |
| Git.ApplyAttempts | src/rebake/utils/git.py:105-123 | `(True, "")` exactly when the clean apply exits 0; otherwise one `--reject` attempt and `(False, its stderr)`, whatever that attempt's exit code |
| Git.ApplyPatch | src/rebake/utils/git.py:90-123 | the root lookup comes first, and a failing lookup or a project outside the root raises (a blank root is the empty relative path, which an absolute project is never inside); otherwise the two attempts run |
| Git.AttemptsShape | src/rebake/utils/git.py:105-123 | one or two apply attempts, each fed the patch, and only the second uses `--reject` |
| Git.ApplyPatchAttempts | src/rebake/utils/git.py:90-123 | over the whole of `apply_patch`: at most three commands, with the apply attempts shaped as above |
| Git.CommonPrefix | src/rebake/utils/git.py:128-133 | a prefix shared by both paths that cannot be extended |
| Git.CommonPrefixLongest | src/rebake/utils/git.py:128-133 | every shared prefix is a prefix of `CommonPrefix` |
| Git.CommonPrefixUnique | src/rebake/utils/git.py:128-133 | a shared prefix that cannot be extended is `CommonPrefix` |
| Git.CommonAncestor | src/rebake/utils/git.py:126-136 | the loop gives no ancestor exactly when the paths share at most the root, and otherwise the longest shared prefix |
| Git.PlanDiff | src/rebake/utils/git.py:145-166 | `git diff --no-index --binary` from the common ancestor with the relative paths when there is one, otherwise with the full paths; each prefix to strip is the path given to git plus "/" |
| Git.StripPrefixesEmpty | src/rebake/utils/git.py:169 | no diff output gives an empty patch |
| Git.StripPrefixesAbsent | src/rebake/utils/git.py:169 | output that mentions neither directory is the patch unchanged |
| Git.StripPrefixesShortens | src/rebake/utils/git.py:169 | the patch is never longer than git's output |
| Git.StripPrefixes | src/rebake/utils/git.py:169 | `raw.replace(old_prefix, "").replace(new_prefix, "")`; its properties are StripPrefixesEmpty, StripPrefixesAbsent and StripPrefixesShortens |
| Git.Diff | src/rebake/utils/git.py:139-169 | the patch `generate_diff` returns: the output of the planned `git diff`, whatever its exit code, with both prefixes deleted |
| Git.GenerateDiff | src/rebake/utils/git.py:139-169 | runs the planned `git diff` and deletes both directory prefixes, the old one first, whatever the exit code |
| Check.Name | src/rebake/check.py:10-12 | `up-to-date` and `outdated` name the two results, one each |
| Check.IsUpToDate | src/rebake/check.py:15-21 | a record that fails to load fails before any git command; otherwise the head lookup's commands are run, and the result is up to date exactly when the recorded commit equals the head |
| Check.MissingRecordRunsNothing | src/rebake/check.py:17 | without `.cruft.json` the check raises FileNotFoundError and runs nothing |
| Check.CheckIsReadOnly | src/rebake/check.py:15-21 | the check runs only the head lookup's ls-remote, shallow clone and `rev-parse` |
| Check.CheckAgainstLsRemote | src/rebake/check.py:18-21 | when ls-remote names the recorded commit the project is up to date, and any other hash makes it outdated |
| Update.SavedContext | src/rebake/update.py:39 | `context.get("cookiecutter", {})`: empty answers when the entry is absent, and a failure exactly when the entry is not a JSON object |
| Update.Detect | src/rebake/update.py:51 | `detect_new_variables` on the new clone against the saved answers, or the error reading the saved answers |
| Update.ExtraContext | src/rebake/update.py:52-55 | `extra_context`: `{}` when nothing is new, otherwise the prompt's answers |
| Update.Render | src/rebake/update.py:64-65 | `render_template` of one side's clone into that side's output directory, or RenderFailed |
| Update.InScope | src/rebake/update.py:45-67 | the body of the `with` block: clone the recorded commit, then go on as CloneNew, stopping at the first failure; UpdateSteps.InScopeFacts states what it does |
| Update.CloneNew | src/rebake/update.py:48-67 | clone the head, then go on as DetectStage |
| Update.DetectStage | src/rebake/update.py:51-67 | detect the new variables against the saved answers, then go on as PromptStage |
| Update.PromptStage | src/rebake/update.py:52-67 | prompt only when there are new variables, merge the answers over the saved ones, then render |
| Update.RenderOld | src/rebake/update.py:64-67 | render the old clone with the merged answers, then go on as RenderNew |
| Update.RenderNew | src/rebake/update.py:65-67 | render the new clone with the same answers and diff the old rendering against the new one |
| Update.Run | src/rebake/update.py:22-90 | the whole run: status check, then LoadStage; its properties are UpdateOrder.StepsInOrder and the UpdateOutcome lemmas |
| Update.LoadStage | src/rebake/update.py:33 | load the record, then go on as HeadStage |
| Update.HeadStage | src/rebake/update.py:35 | resolve the head of the recorded template and branch, then go on as ScopeStage |
| Update.ScopeStage | src/rebake/update.py:41-67 | the temporary directory's work as Scoped, then ApplyStage |
| Update.ApplyStage | src/rebake/update.py:69-90 | the patch as PatchStage, then, unless it failed, the record moved to the head and saved |
| Update.Scoped | src/rebake/update.py:41-67 | the temporary directory is created before the block and removed after it, however the block ends |
| Update.Advanced | src/rebake/update.py:88-89 | the record moves to the head commit and stores the merged answers under `cookiecutter`; template, branch, skip list and every other context key are unchanged |
| Update.PatchStage | src/rebake/update.py:69-83 | an empty patch is reported as no changes and applies nothing; otherwise `apply_patch` runs once on the project |
| Update.Project.constructor | src/rebake/update.py:22 | a project with its directory and record, and an empty log |
| Update.Project.RunUpdate | src/rebake/update.py:22-90 | the whole run, step by step on the project's record, gives the result, the record and the log of `Update.Run` |
| Update.Project.RunLoaded | src/rebake/update.py:33-90 | the steps after the status check, as `Update.LoadStage` |
| Update.Project.RunFromHead | src/rebake/update.py:35-90 | the steps from the head lookup, as `Update.HeadStage` |
| Update.Project.RunWithHead | src/rebake/update.py:41-90 | the temporary directory, then the patch and the record, as `Update.ScopeStage` |
| Update.Project.RunApply | src/rebake/update.py:69-90 | the patch, then the record saved even when hunks were rejected, as `Update.ApplyStage` |
| Update.Project.RunPatch | src/rebake/update.py:69-83 | the patch, as `Update.PatchStage` |
| Update.Project.RunScoped | src/rebake/update.py:41-67 | the `with` block, as `Update.Scoped` |
| Update.Project.RunInScope | src/rebake/update.py:45-67 | clone, detect, ask, render and diff, as `Update.InScope` |
| Update.Project.RunCloneNew | src/rebake/update.py:48-67 | the clone at the head and what follows, as `Update.CloneNew` |
| Update.Project.RunDetect | src/rebake/update.py:51-67 | detection and what follows, as `Update.DetectStage` |
| Update.Project.RunPrompt | src/rebake/update.py:52-67 | the prompt when there are new variables, the merge and the renderings, as `Update.PromptStage` |
| Update.Project.RunRender | src/rebake/update.py:64-67 | both renderings and the diff, as `Update.RenderOld` |
| UpdateOrder.StepsInOrder | src/rebake/update.py:30-90 | every run takes its steps in the order of the source, each at most once: status, record, head, temporary directory, old clone, new clone, detection, prompt, old rendering, new rendering, diff, removal, patch, saved record |
| UpdateSteps.Answers | src/rebake/update.py:51-57 | the answers both renderings use exist only when the saved answers, the detection and the prompt all succeeded; when nothing is new they are the saved answers unchanged |
| UpdateSteps.InScopeFacts | src/rebake/update.py:45-67 | inside the temporary directory the old clone comes first; nothing else happens unless both clones succeed; after them the detection is made against the saved answers |
| UpdateOutcome.RunFacts | src/rebake/update.py:22-90 | every run keeps all the promises below at once |
| UpdateOutcome.FailureKeepsRecord | src/rebake/update.py:30-31 | a dirty tree stops the run after the status check with the record untouched; any failed run leaves the record as it was and saves nothing; a save is always the last step and writes the record the run leaves |
| UpdateOutcome.SuccessRecordsHead | src/rebake/update.py:88-90 | after a successful run the record loads back as the old one at the head commit, with the merged answers under `cookiecutter`, and template, branch, skip list and other context keys unchanged |
| UpdateOutcome.PromptsOnlyForNewVariables | src/rebake/update.py:51-57 | detection is made against the recorded answers; the prompt asks for exactly the detected new variables, only when there are some, and always when there are some |
| UpdateOutcome.BothVersionsRenderedAlike | src/rebake/update.py:57-65 | both versions are rendered from their clones with the same answers, the recorded ones merged with the new; a successful run rendered both |
| UpdateOutcome.PatchOnlyWhenChanged | src/rebake/update.py:67-83 | the diff is applied to the project exactly when it is not empty, an empty diff is reported as no changes, and only a diffed patch is applied |
| UpdateOutcome.ClonesBeforeDetection | src/rebake/update.py:45-51 | the template is cloned at the recorded commit and at the head into the temporary directory; nothing is detected, asked, rendered or diffed unless both clones succeeded |
| UpdateOutcome.SavedAfterPartialApply | src/rebake/update.py:69-90 | when the clean apply fails and the `--reject` attempt runs, the run reports the rejected hunks with its stderr, and the record is still moved to the head and saved as the last step |
| UpdateOutcome.TempDirAlwaysRemoved | src/rebake/update.py:41 | the temporary directory is created exactly when the run gets past the head lookup, and is then always removed |

"Prompts at most once" and "applies at most once" follow from `UpdateOrder.StepsInOrder`.
Its log is strictly ordered by step, so no step appears twice.

## Left out

- The tools are deterministic functions. Two identical git commands in one run give the same
  answer, and the filesystem state between commands is not modelled.
- `cli.py` is not part of this model: argument parsing, exit codes and console output.
- The console messages of `run_update` (lines 37, 54, 73-83) are left out, as is the listing
  of `.rej` files (line 72). The model keeps the report they are based on.
- `Path.resolve` (update.py:28, git.py:141-142): directories are taken as already absolute and
  resolved. Symbolic links are not modelled.
- The temporary directory of `run_update` and the scratch directory of the clone fallback are
  parameters. The temporary directory's creation and removal are the `TempDirCreated` and
  `TempDirRemoved` events. The scratch directory's creation and removal are not logged.
- The `mkdir` of the two output directories (update.py:62-63) is not modelled. Rendering is an
  oracle that receives the output directory.
- `render_template` (template.py) is not part of this model beyond its signature.
- The JSON text encoding and decoding of `.cruft.json` (config.py:25, 45) is not modelled.
  The record is its parsed dict, and JSON numbers are integers only (no floats).
- Config.Load: a `template`, `commit`, `context`, `checkout` or `skip` entry of the wrong JSON
  type fails at load (TypeMismatch), before any git command. The source accepts such a value
  as it is and fails later, or never. With a non-string `commit`, `is_up_to_date` still runs
  ls-remote and answers outdated, and `run_update` fails only after the head lookup.
- Config.Fields, Config.ContextOf, Config.CheckoutOf, Config.SkipOf: these type checks are
  the strictness described for Config.Load.
- Paths.ParsePath: a path that starts with exactly two slashes is read with the root "/".
  POSIX `pathlib` keeps "//" as its root. `git rev-parse --show-toplevel` prints a path with
  a single leading slash, so `_git_root` does not meet this case.
- Update.SavedContext: a `cookiecutter` entry that is not a JSON object fails before
  detection. The source would raise a TypeError during detection or the merge.
- Text.ReplaceAll: the empty pattern is not modelled. The prefixes deleted by `generate_diff`
  always end in "/", so they are never empty.
- `run_update` resolves the head and then always clones, renders and diffs, even when the
  recorded commit already is the head. The model follows the code.
- Concurrency and interrupts other than the prompt's abort are not modelled.
