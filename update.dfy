/** `rebake update` (`run_update`): bring a project generated from a cookiecutter template up to
    the template's current head. The template is cloned at the project's recorded commit and at
    the head, both clones are rendered with the project's answers, and the difference between the
    two renderings is applied to the project as a patch; the record then moves to the head.

    The external tools are oracles gathered in `Tools`. `Run` is the whole run as a function
    of the tools, the directories and the record it starts from; `Project.RunUpdate` performs it
    step by step on the project's record. */
module Update {
  import opened Base
  import opened Json
  import opened Paths
  import opened Git
  import opened Config
  import opened Variables

  /** The foreign tools a run relies on.
      `run`: git, as in the gateway.
      `readJson`: reading and parsing a JSON file (None when it is missing or not JSON).
      `render`: cookiecutter rendering a template directory with a context into an output
      directory, returning the project directory it created (None when it raised).
      `promptForConfig`: cookiecutter's interactive prompt (None when the user aborted). */
  datatype Tools = Tools(
    run: Command -> Completed,
    readJson: Path -> Option<Value>,
    render: (Path, Dict, Path) -> Option<Path>,
    promptForConfig: Dict -> Option<Dict>)

  /** Which of the two template versions a clone or a rendering is about. */
  datatype Side = OldSide | NewSide

  /** One step of a run, logged when the step is taken, with its outcome. */
  datatype Event =
    | StatusChecked(dir: Path, clean: Result<bool>)
    | ConfigLoaded(config: Result<CruftConfig>)
    | HeadResolved(template: string, checkout: Option<string>, head: Result<string>)
    | TempDirCreated(tmp: Path)
    | Cloned(side: Side, url: string, commit: string, dest: Path, cloned: Result<()>)
    | VariablesDetected(templateDir: Path, newVars: Result<Dict>)
    | Prompted(asked: Dict, answers: Result<Dict>)
    | Rendered(side: Side, templateDir: Path, context: Dict, outputDir: Path, project: Result<Path>)
    | Diffed(oldDir: Path, newDir: Path, patch: string)
    | TempDirRemoved(tmp: Path)
    | PatchApplied(patch: string, dir: Path, applied: Result<(bool, string)>)
    | ConfigSaved(data: Dict)

  /** How the patch went; the program reports it on the console. */
  datatype Report = NoChanges | Applied | HunksRejected(stderr: string)

  /** A stage of the run: its result and the events it logged. */
  datatype Stage<+T> = Stage(result: Result<T>, events: seq<Event>)

  /** A whole run: its result, its events, and the record it leaves behind. */
  datatype UpdateRun = UpdateRun(result: Result<Report>, events: seq<Event>, record: Option<Dict>)

  /** What the scope of the temporary directory hands on: the merged answers and the patch. */
  datatype Rendering = Rendering(merged: Dict, patch: string)

  function TemplateDir(tmp: Path, side: Side): Path {
    tmp + [if side == OldSide then "old_template" else "new_template"]
  }

  function OutputDir(tmp: Path, side: Side): Path {
    tmp + [if side == OldSide then "old_output" else "new_output"]
  }

  /** `config.context.get("cookiecutter", {})`: the answers saved at the last generation or update.
      An entry that is not a JSON object cannot be filtered against. */
  function SavedContext(context: Dict): (r: Result<Dict>)
    ensures "cookiecutter" !in Keys(context) ==> r == Success([])
    ensures r.Failure? <==> Get(context, "cookiecutter").Some? && !Get(context, "cookiecutter").value.Object?
    ensures Get(context, "cookiecutter").Some? && r.Success? ==> Get(context, "cookiecutter") == Some(Object(r.value))
  {
    match Get(context, "cookiecutter")
    case None => Success([])
    case Some(Object(entries)) => Success(entries)
    case Some(_) => Failure(TypeMismatch("cookiecutter"))
  }

  /** `detect_new_variables(new_template_dir, old_context)`. */
  function Detect(t: Tools, templateDir: Path, saved: Result<Dict>): Result<Dict> {
    match saved
    case Failure(e) => Failure(e)
    case Success(oldContext) => DetectNewVariables(t.readJson, templateDir, oldContext)
  }

  /** `render_template` for one side. */
  function Render(t: Tools, tmp: Path, side: Side, merged: Dict): Result<Path> {
    match t.render(TemplateDir(tmp, side), merged, OutputDir(tmp, side))
    case None => Failure(RenderFailed(TemplateDir(tmp, side)))
    case Some(project) => Success(project)
  }

  function RenderedEvent(t: Tools, tmp: Path, side: Side, merged: Dict): Event {
    Rendered(side, TemplateDir(tmp, side), merged, OutputDir(tmp, side), Render(t, tmp, side, merged))
  }

  /** `clone_at_commit` for one side. */
  function ClonedEvent(t: Tools, tmp: Path, side: Side, url: string, commit: string): Event {
    Cloned(side, url, commit, TemplateDir(tmp, side), CloneAtCommit(t.run, url, commit, TemplateDir(tmp, side)).result)
  }

  /** A step's event in front of what the following steps did. */
  function Then<T>(e: Event, s: Stage<T>): (s': Stage<T>)
    ensures s'.result == s.result && s'.events == [e] + s.events
  {
    Stage(s.result, [e] + s.events)
  }

  /** Lines 45-67, inside the temporary directory: clone both template versions, detect and ask
      for new variables, merge the answers, render both versions and diff the renderings.
      Line 47: the template at the recorded commit comes first. */
  function InScope(t: Tools, c: CruftConfig, head: string, tmp: Path): Stage<Rendering> {
    var e := ClonedEvent(t, tmp, OldSide, c.template, c.commit);
    if e.cloned.Failure? then Stage(Failure(e.cloned.error), [e])
    else Then(e, CloneNew(t, c, head, tmp))
  }

  /** Line 48: the template at its head commit. */
  function CloneNew(t: Tools, c: CruftConfig, head: string, tmp: Path): Stage<Rendering> {
    var e := ClonedEvent(t, tmp, NewSide, c.template, head);
    if e.cloned.Failure? then Stage(Failure(e.cloned.error), [e])
    else Then(e, DetectStage(t, c.context, tmp))
  }

  /** Line 51: the variables of the new manifest the saved answers do not cover. */
  function DetectStage(t: Tools, context: Dict, tmp: Path): Stage<Rendering> {
    var saved := SavedContext(context);
    var newVars := Detect(t, TemplateDir(tmp, NewSide), saved);
    var e := VariablesDetected(TemplateDir(tmp, NewSide), newVars);
    if newVars.Failure? then Stage(Failure(newVars.error), [e])
    else Then(e, PromptStage(t, saved.value, newVars.value, tmp))
  }

  /** Lines 52-55, `extra_context`: empty when nothing is new, otherwise the prompt's answers. */
  function ExtraContext(t: Tools, newVars: Dict): Result<Dict> {
    if newVars == [] then Success([]) else PromptNewVariables(t.promptForConfig, newVars)
  }

  /** Lines 52-57: the prompt runs, and is logged, only when there are new variables; the
      answers are merged over the saved ones. */
  function PromptStage(t: Tools, saved: Dict, newVars: Dict, tmp: Path): Stage<Rendering> {
    var extra := ExtraContext(t, newVars);
    var asked := if newVars == [] then [] else [Prompted(newVars, extra)];
    if extra.Failure? then Stage(Failure(extra.error), asked)
    else
      var rest := RenderOld(t, tmp, Merge(saved, extra.value));
      Stage(rest.result, asked + rest.events)
  }

  /** Line 64: the old template rendered with the merged answers. */
  function RenderOld(t: Tools, tmp: Path, merged: Dict): Stage<Rendering> {
    var e := RenderedEvent(t, tmp, OldSide, merged);
    if e.project.Failure? then Stage(Failure(e.project.error), [e])
    else Then(e, RenderNew(t, tmp, merged, e.project.value))
  }

  /** Lines 65-67: the new template rendered with the same answers, and the diff from the old
      rendering to the new one. */
  function RenderNew(t: Tools, tmp: Path, merged: Dict, oldProject: Path): Stage<Rendering> {
    var e := RenderedEvent(t, tmp, NewSide, merged);
    if e.project.Failure? then Stage(Failure(e.project.error), [e])
    else
      var patch := Diff(t.run, oldProject, e.project.value);
      Stage(Success(Rendering(merged, patch)), [e, Diffed(oldProject, e.project.value, patch)])
  }

  /** The `with tempfile.TemporaryDirectory()` block: the directory is removed however the block ends. */
  function Scoped(t: Tools, c: CruftConfig, head: string, tmp: Path): (s: Stage<Rendering>)
    ensures s.result == InScope(t, c, head, tmp).result
    ensures s.events == [TempDirCreated(tmp)] + InScope(t, c, head, tmp).events + [TempDirRemoved(tmp)]
  {
    var inner := InScope(t, c, head, tmp);
    Stage(inner.result, [TempDirCreated(tmp)] + inner.events + [TempDirRemoved(tmp)])
  }

  /** Lines 88-89: the record moves to the head and keeps the merged answers. */
  function Advanced(c: CruftConfig, head: string, merged: Dict): (c': CruftConfig)
    ensures c'.template == c.template && c'.checkout == c.checkout && c'.skip == c.skip
    ensures c'.commit == head
    ensures Get(c'.context, "cookiecutter") == Some(Object(merged))
    ensures forall k :: k != "cookiecutter" ==> Get(c'.context, k) == Get(c.context, k)
  {
    c.(commit := head, context := Set(c.context, "cookiecutter", Object(merged)))
  }

  /** A step's event in front of what the rest of the run did. */
  function ThenRun(e: Event, u: UpdateRun): (u': UpdateRun)
    ensures u'.result == u.result && u'.record == u.record && u'.events == [e] + u.events
  {
    UpdateRun(u.result, [e] + u.events, u.record)
  }

  /** `run_update` on the project at `dir` whose `.cruft.json` holds `record` (None when there
      is none), with `tmp` the temporary directory and `scratch` the clone-fallback directory.
      Lines 30-31: nothing happens to a project with uncommitted changes. */
  function Run(t: Tools, dir: Path, tmp: Path, scratch: string, record: Option<Dict>): UpdateRun {
    var clean := IsWorkingTreeClean(t.run, dir).result;
    var e := StatusChecked(dir, clean);
    match clean
    case Failure(err) => UpdateRun(Failure(err), [e], record)
    case Success(false) => UpdateRun(Failure(UncommittedChanges), [e], record)
    case Success(true) => ThenRun(e, LoadStage(t, dir, tmp, scratch, record))
  }

  /** Line 33: the project's record. */
  function LoadStage(t: Tools, dir: Path, tmp: Path, scratch: string, record: Option<Dict>): UpdateRun {
    var loaded := Load(record);
    var e := ConfigLoaded(loaded);
    if loaded.Failure? then UpdateRun(Failure(loaded.error), [e], record)
    else ThenRun(e, HeadStage(t, dir, tmp, scratch, loaded.value, record))
  }

  /** Line 35: the head commit of the recorded template and branch. */
  function HeadStage(t: Tools, dir: Path, tmp: Path, scratch: string, c: CruftConfig, record: Option<Dict>): UpdateRun {
    var head := HeadCommit(t.run, c.template, c.checkout, scratch).result;
    var e := HeadResolved(c.template, c.checkout, head);
    if head.Failure? then UpdateRun(Failure(head.error), [e], record)
    else ThenRun(e, ScopeStage(t, dir, tmp, c, head.value, record))
  }

  /** Lines 41-67: the work inside the temporary directory. */
  function ScopeStage(t: Tools, dir: Path, tmp: Path, c: CruftConfig, head: string, record: Option<Dict>): UpdateRun {
    var scoped := Scoped(t, c, head, tmp);
    if scoped.result.Failure? then UpdateRun(Failure(scoped.result.error), scoped.events, record)
    else
      var rest := ApplyStage(t, dir, c, head, scoped.result.value, record);
      UpdateRun(rest.result, scoped.events + rest.events, rest.record)
  }

  /** Lines 69-83: the patch is applied only when it is not empty. */
  function PatchStage(t: Tools, dir: Path, patch: string): (s: Stage<Report>)
    ensures patch == "" ==> s == Stage(Success(NoChanges), [])
    ensures patch != "" ==> s.events == [PatchApplied(patch, dir, ApplyPatch(t.run, patch, dir).result)]
  {
    if patch == "" then Stage(Success(NoChanges), [])
    else
      var applied := ApplyPatch(t.run, patch, dir).result;
      var e := PatchApplied(patch, dir, applied);
      match applied
      case Failure(err) => Stage(Failure(err), [e])
      case Success((true, _)) => Stage(Success(Applied), [e])
      case Success((false, stderr)) => Stage(Success(HunksRejected(stderr)), [e])
  }

  /** Lines 69-90: the patch, then the record, which is saved whether every hunk applied or
      some were rejected. */
  function ApplyStage(t: Tools, dir: Path, c: CruftConfig, head: string, rendering: Rendering, record: Option<Dict>): UpdateRun {
    var applied := PatchStage(t, dir, rendering.patch);
    if applied.result.Failure? then UpdateRun(Failure(applied.result.error), applied.events, record)
    else
      var data := Save(Advanced(c, head, rendering.merged));
      UpdateRun(applied.result, applied.events + [ConfigSaved(data)], Some(data))
  }

  /** Logging two parts one after the other logs the two together. */
  lemma Regrouped(log: seq<Event>, first: seq<Event>, second: seq<Event>)
    ensures log + first + second == log + (first + second)
  {
  }

  /** A project directory and its `.cruft.json`, read and written as parsed JSON. `trace` logs
      the steps of every run performed on it. */
  class Project {
    const dir: Path
    var record: Option<Dict>
    ghost var trace: seq<Event>

    constructor(dir: Path, record: Option<Dict>)
      ensures this.dir == dir && this.record == record && trace == []
    {
      this.dir := dir;
      this.record := record;
      trace := [];
    }

    /** `run_update`: the whole pipeline, changing the record only at its very end. */
    method RunUpdate(t: Tools, tmp: Path, scratch: string) returns (r: Result<Report>)
      modifies this
      ensures var u := Run(t, dir, tmp, scratch, old(record));
        r == u.result && record == u.record && trace == old(trace) + u.events
    {
      var clean := IsWorkingTreeClean(t.run, dir).result;
      trace := trace + [StatusChecked(dir, clean)];
      if clean.Failure? {
        return Failure(clean.error);
      }
      if !clean.value {
        return Failure(UncommittedChanges);
      }
      r := RunLoaded(t, tmp, scratch);
      Regrouped(old(trace), [StatusChecked(dir, clean)], LoadStage(t, dir, tmp, scratch, old(record)).events);
    }

    /** Lines 33-90, once the working tree is known to be clean: load the record, then go on
        from the head. */
    method RunLoaded(t: Tools, tmp: Path, scratch: string) returns (r: Result<Report>)
      modifies this
      ensures var u := LoadStage(t, dir, tmp, scratch, old(record));
        r == u.result && record == u.record && trace == old(trace) + u.events
    {
      var loaded := Load(record);
      trace := trace + [ConfigLoaded(loaded)];
      if loaded.Failure? {
        return Failure(loaded.error);
      }
      r := RunFromHead(t, tmp, scratch, loaded.value);
      Regrouped(old(trace), [ConfigLoaded(loaded)], HeadStage(t, dir, tmp, scratch, loaded.value, old(record)).events);
    }

    /** Lines 35-90, once the record is loaded: resolve the head, work in the temporary
        directory, apply the patch and save the record. */
    method RunFromHead(t: Tools, tmp: Path, scratch: string, config: CruftConfig) returns (r: Result<Report>)
      modifies this
      ensures var u := HeadStage(t, dir, tmp, scratch, config, old(record));
        r == u.result && record == u.record && trace == old(trace) + u.events
    {
      var head := HeadCommit(t.run, config.template, config.checkout, scratch).result;
      trace := trace + [HeadResolved(config.template, config.checkout, head)];
      if head.Failure? {
        return Failure(head.error);
      }
      var newCommit := head.value;
      r := RunWithHead(t, tmp, config, newCommit);
      Regrouped(old(trace), [HeadResolved(config.template, config.checkout, head)], ScopeStage(t, dir, tmp, config, newCommit, old(record)).events);
    }

    /** Lines 41-90: the work in the temporary directory, then the patch and the record. */
    method RunWithHead(t: Tools, tmp: Path, config: CruftConfig, newCommit: string) returns (r: Result<Report>)
      modifies this
      ensures var u := ScopeStage(t, dir, tmp, config, newCommit, old(record));
        r == u.result && record == u.record && trace == old(trace) + u.events
    {
      var scoped := RunScoped(t, config, newCommit, tmp);
      if scoped.Failure? {
        return Failure(scoped.error);
      }
      r := RunApply(t, config, newCommit, scoped.value);
      Regrouped(old(trace), Scoped(t, config, newCommit, tmp).events, ApplyStage(t, dir, config, newCommit, scoped.value, old(record)).events);
    }

    /** Lines 69-90: apply the patch, then move the record to the new commit and save it. */
    method RunApply(t: Tools, loaded: CruftConfig, newCommit: string, rendering: Rendering) returns (r: Result<Report>)
      modifies this
      ensures var u := ApplyStage(t, dir, loaded, newCommit, rendering, old(record));
        r == u.result && record == u.record && trace == old(trace) + u.events
    {
      r := RunPatch(t, rendering.patch);
      if r.Failure? {
        return;
      }
      var config := loaded;
      config := config.(commit := newCommit);
      config := config.(context := Set(config.context, "cookiecutter", Object(rendering.merged)));
      assert config == Advanced(loaded, newCommit, rendering.merged);
      var data := SaveData(config);
      record := Some(data);
      trace := trace + [ConfigSaved(data)];
      Regrouped(old(trace), PatchStage(t, dir, rendering.patch).events, [ConfigSaved(data)]);
    }

    /** Lines 69-83: apply a non-empty patch. */
    method RunPatch(t: Tools, patch: string) returns (r: Result<Report>)
      modifies this`trace
      ensures r == PatchStage(t, dir, patch).result
      ensures trace == old(trace) + PatchStage(t, dir, patch).events
    {
      if patch == "" {
        return Success(NoChanges);
      }
      var applied := ApplyPatch(t.run, patch, dir).result;
      trace := trace + [PatchApplied(patch, dir, applied)];
      if applied.Failure? {
        return Failure(applied.error);
      }
      r := Success(if applied.value.0 then Applied else HunksRejected(applied.value.1));
    }

    /** The `with tempfile.TemporaryDirectory()` block of `run_update`. */
    method RunScoped(t: Tools, config: CruftConfig, head: string, tmp: Path) returns (r: Result<Rendering>)
      modifies this`trace
      ensures r == Scoped(t, config, head, tmp).result
      ensures trace == old(trace) + Scoped(t, config, head, tmp).events
    {
      trace := trace + [TempDirCreated(tmp)];
      r := RunInScope(t, config, head, tmp);
      trace := trace + [TempDirRemoved(tmp)];
      ghost var inner := InScope(t, config, head, tmp).events;
      Regrouped(old(trace) + [TempDirCreated(tmp)], inner, [TempDirRemoved(tmp)]);
      Regrouped(old(trace), [TempDirCreated(tmp)], inner + [TempDirRemoved(tmp)]);
    }

    /** The body of the `with` block: clone, ask, render, diff. */
    method RunInScope(t: Tools, config: CruftConfig, head: string, tmp: Path) returns (r: Result<Rendering>)
      modifies this`trace
      ensures r == InScope(t, config, head, tmp).result
      ensures trace == old(trace) + InScope(t, config, head, tmp).events
    {
      var oldTemplate := TemplateDir(tmp, OldSide);
      var cloned := CloneAtCommit(t.run, config.template, config.commit, oldTemplate).result;
      trace := trace + [Cloned(OldSide, config.template, config.commit, oldTemplate, cloned)];
      if cloned.Failure? {
        return Failure(cloned.error);
      }
      r := RunCloneNew(t, config, head, tmp);
      Regrouped(old(trace), [Cloned(OldSide, config.template, config.commit, oldTemplate, cloned)], CloneNew(t, config, head, tmp).events);
    }

    /** Line 48, then on to the variables. */
    method RunCloneNew(t: Tools, config: CruftConfig, head: string, tmp: Path) returns (r: Result<Rendering>)
      modifies this`trace
      ensures r == CloneNew(t, config, head, tmp).result
      ensures trace == old(trace) + CloneNew(t, config, head, tmp).events
    {
      var newTemplate := TemplateDir(tmp, NewSide);
      var cloned := CloneAtCommit(t.run, config.template, head, newTemplate).result;
      trace := trace + [Cloned(NewSide, config.template, head, newTemplate, cloned)];
      if cloned.Failure? {
        return Failure(cloned.error);
      }
      r := RunDetect(t, config.context, tmp);
      Regrouped(old(trace), [Cloned(NewSide, config.template, head, newTemplate, cloned)], DetectStage(t, config.context, tmp).events);
    }

    /** Line 51: the variables the saved answers do not cover; then on to the prompt. */
    method RunDetect(t: Tools, context: Dict, tmp: Path) returns (r: Result<Rendering>)
      modifies this`trace
      ensures r == DetectStage(t, context, tmp).result
      ensures trace == old(trace) + DetectStage(t, context, tmp).events
    {
      var newTemplate := TemplateDir(tmp, NewSide);
      var oldContext := SavedContext(context);
      var newVars := Detect(t, newTemplate, oldContext);
      trace := trace + [VariablesDetected(newTemplate, newVars)];
      if newVars.Failure? {
        return Failure(newVars.error);
      }
      r := RunPrompt(t, oldContext.value, newVars.value, tmp);
      Regrouped(old(trace), [VariablesDetected(newTemplate, newVars)], PromptStage(t, oldContext.value, newVars.value, tmp).events);
    }

    /** Lines 52-67: ask for the new variables if there are any, merge, render, diff. */
    method RunPrompt(t: Tools, saved: Dict, newVars: Dict, tmp: Path) returns (r: Result<Rendering>)
      modifies this`trace
      ensures r == PromptStage(t, saved, newVars, tmp).result
      ensures trace == old(trace) + PromptStage(t, saved, newVars, tmp).events
    {
      var extra: Dict := [];
      ghost var asked: seq<Event> := [];
      if newVars != [] {
        var answers := PromptNewVariables(t.promptForConfig, newVars);
        asked := [Prompted(newVars, answers)];
        trace := trace + asked;
        if answers.Failure? {
          return Failure(answers.error);
        }
        extra := answers.value;
      }
      var merged := Merge(saved, extra);
      r := RunRender(t, tmp, merged);
      Regrouped(old(trace), asked, RenderOld(t, tmp, merged).events);
    }

    /** Lines 64-67: render both versions with the same answers and diff them. */
    method RunRender(t: Tools, tmp: Path, merged: Dict) returns (r: Result<Rendering>)
      modifies this`trace
      ensures r == RenderOld(t, tmp, merged).result
      ensures trace == old(trace) + RenderOld(t, tmp, merged).events
    {
      var oldProject := Render(t, tmp, OldSide, merged);
      ghost var first := Rendered(OldSide, TemplateDir(tmp, OldSide), merged, OutputDir(tmp, OldSide), oldProject);
      trace := trace + [first];
      if oldProject.Failure? {
        return Failure(oldProject.error);
      }
      var newProject := Render(t, tmp, NewSide, merged);
      ghost var second := Rendered(NewSide, TemplateDir(tmp, NewSide), merged, OutputDir(tmp, NewSide), newProject);
      trace := trace + [second];
      if newProject.Failure? {
        Regrouped(old(trace), [first], [second]);
        return Failure(newProject.error);
      }
      var patch, _ := GenerateDiff(t.run, oldProject.value, newProject.value);
      trace := trace + [Diffed(oldProject.value, newProject.value, patch)];
      Regrouped(old(trace) + [first], [second], [Diffed(oldProject.value, newProject.value, patch)]);
      Regrouped(old(trace), [first], [second, Diffed(oldProject.value, newProject.value, patch)]);
      return Success(Rendering(merged, patch));
    }
  }
}
