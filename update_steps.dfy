/** What the steps inside the temporary directory of `rebake update` do: which template
    versions are cloned, which variables are asked for, which answers the two renderings use,
    and which patch comes out. Each stage of `Update.InScope` has a lemma here. */
module UpdateSteps {
  import opened Base
  import opened Json
  import opened Paths
  import opened Git
  import opened Config
  import opened Variables
  import opened Update
  import opened UpdateOrder

  /** Every rendering used `merged` on a template directory of the clones, into an output
      directory of the temporary directory. */
  predicate RenderedWith(tmp: Path, merged: Dict, events: seq<Event>) {
    forall e :: e in events && e.Rendered? ==>
      e.context == merged && e.templateDir == TemplateDir(tmp, e.side) && e.outputDir == OutputDir(tmp, e.side)
  }

  /** The stage succeeded exactly when a diff was taken, and it hands on that diff's patch. */
  predicate Yields(s: Stage<Rendering>) {
    && (s.result.Success? <==> exists e :: e in s.events && e.Diffed?)
    && (forall e :: e in s.events && e.Diffed? ==> s.result.Success? && s.result.value.patch == e.patch)
  }

  /** Only renderings and the diff. */
  predicate OnlyRenders(events: seq<Event>) {
    forall e :: e in events ==> e.Rendered? || e.Diffed?
  }

  /** The answers both renderings use: the saved ones merged with those given for the new
      variables, or the error that ends the run before rendering. */
  function Answers(t: Tools, context: Dict, tmp: Path): (r: Result<Dict>)
    ensures r.Success? ==>
      && SavedContext(context).Success?
      && Detect(t, TemplateDir(tmp, NewSide), SavedContext(context)).Success?
      && ExtraContext(t, Detect(t, TemplateDir(tmp, NewSide), SavedContext(context)).value).Success?
    ensures SavedContext(context).Success? && Detect(t, TemplateDir(tmp, NewSide), SavedContext(context)) == Success([]) ==>
      r == SavedContext(context)
  {
    var saved := SavedContext(context);
    var detected := Detect(t, TemplateDir(tmp, NewSide), saved);
    if detected.Failure? then Failure(detected.error)
    else
      var extra := ExtraContext(t, detected.value);
      if extra.Failure? then Failure(extra.error)
      else Success(Merge(saved.value, extra.value))
  }

  lemma RenderedAlone(tmp: Path, merged: Dict, e: Event, s: Stage<Rendering>)
    requires e.Rendered? && e.context == merged && e.templateDir == TemplateDir(tmp, e.side) && e.outputDir == OutputDir(tmp, e.side)
    requires s.result.Failure? && s.events == [e]
    ensures RenderedWith(tmp, merged, s.events) && Yields(s) && OnlyRenders(s.events)
  {
    assert forall x :: x in s.events ==> x == e;
  }

  lemma RenderedThenDiffed(tmp: Path, merged: Dict, e: Event, d: Event, s: Stage<Rendering>)
    requires e.Rendered? && e.context == merged && e.templateDir == TemplateDir(tmp, e.side) && e.outputDir == OutputDir(tmp, e.side)
    requires d.Diffed? && s == Stage(Success(Rendering(merged, d.patch)), [e, d])
    ensures RenderedWith(tmp, merged, s.events) && Yields(s) && OnlyRenders(s.events) && e in s.events
  {
    assert forall x :: x in s.events ==> x == e || x == d;
    assert d in s.events;
  }

  /** Lines 65-67: the new version is rendered with `merged`, then the diff is taken. */
  lemma RenderNewFacts(t: Tools, tmp: Path, merged: Dict, oldProject: Path)
    ensures var s := RenderNew(t, tmp, merged, oldProject);
      && RenderedWith(tmp, merged, s.events) && Yields(s) && OnlyRenders(s.events)
      && (s.result.Success? ==> s.result.value.merged == merged && RenderedEvent(t, tmp, NewSide, merged) in s.events)
  {
    var e := RenderedEvent(t, tmp, NewSide, merged);
    var s := RenderNew(t, tmp, merged, oldProject);
    if e.project.Failure? {
      RenderedAlone(tmp, merged, e, s);
    } else {
      var d := Diffed(oldProject, e.project.value, Diff(t.run, oldProject, e.project.value));
      RenderedThenDiffed(tmp, merged, e, d, s);
    }
  }

  /** Steps before the renderings change nothing about them. */
  lemma Prefixed(tmp: Path, merged: Dict, pre: seq<Event>, rest: Stage<Rendering>, s: Stage<Rendering>)
    requires forall x :: x in pre ==> !x.Rendered? && !x.Diffed?
    requires s == Stage(rest.result, pre + rest.events)
    requires RenderedWith(tmp, merged, rest.events) && Yields(rest)
    ensures RenderedWith(tmp, merged, s.events) && Yields(s)
    ensures forall x :: x in s.events <==> x in pre || x in rest.events
  {
  }

  /** A stage that fails before rendering renders nothing and takes no diff. */
  lemma Stopped(tmp: Path, merged: Dict, s: Stage<Rendering>)
    requires forall x :: x in s.events ==> !x.Rendered? && !x.Diffed?
    requires s.result.Failure?
    ensures RenderedWith(tmp, merged, s.events) && Yields(s)
  {
  }

  /** Lines 64-67: both versions are rendered with the same answers before the diff. */
  lemma RenderOldFacts(t: Tools, tmp: Path, merged: Dict)
    ensures var s := RenderOld(t, tmp, merged);
      && RenderedWith(tmp, merged, s.events) && Yields(s) && OnlyRenders(s.events)
      && (s.result.Success? ==>
            && s.result.value.merged == merged
            && RenderedEvent(t, tmp, OldSide, merged) in s.events
            && RenderedEvent(t, tmp, NewSide, merged) in s.events)
  {
    var e := RenderedEvent(t, tmp, OldSide, merged);
    var s := RenderOld(t, tmp, merged);
    if e.project.Failure? {
      RenderedAlone(tmp, merged, e, s);
    } else {
      var rest := RenderNew(t, tmp, merged, e.project.value);
      RenderNewFacts(t, tmp, merged, e.project.value);
      RenderedFirst(tmp, merged, e, rest, s);
    }
  }

  lemma RenderedFirst(tmp: Path, merged: Dict, e: Event, rest: Stage<Rendering>, s: Stage<Rendering>)
    requires e.Rendered? && e.context == merged && e.templateDir == TemplateDir(tmp, e.side) && e.outputDir == OutputDir(tmp, e.side)
    requires s == Stage(rest.result, [e] + rest.events)
    requires RenderedWith(tmp, merged, rest.events) && Yields(rest) && OnlyRenders(rest.events)
    ensures RenderedWith(tmp, merged, s.events) && Yields(s) && OnlyRenders(s.events) && e in s.events
    ensures forall x :: x in rest.events ==> x in s.events
  {
  }

  /** What the prompt stage logs about the prompt. */
  predicate Asked(newVars: Dict, extra: Result<Dict>, events: seq<Event>) {
    && (forall e :: e in events && e.Prompted? ==> e == Prompted(newVars, extra) && newVars != [])
    && (newVars != [] ==> Prompted(newVars, extra) in events)
    && (forall e :: e in events && e.Rendered? ==> extra.Success?)
  }

  lemma AskedThenRendered(tmp: Path, saved: Dict, newVars: Dict, extra: Result<Dict>, rest: Stage<Rendering>, s: Stage<Rendering>)
    requires extra.Success? && OnlyRenders(rest.events)
    requires RenderedWith(tmp, Merge(saved, extra.value), rest.events) && Yields(rest)
    requires s == Stage(rest.result, (if newVars == [] then [] else [Prompted(newVars, extra)]) + rest.events)
    ensures Asked(newVars, extra, s.events) && Yields(s) && RenderedWith(tmp, Merge(saved, extra.value), s.events)
    ensures forall x :: x in rest.events ==> x in s.events
  {
  }

  lemma AskedAndStopped(newVars: Dict, extra: Result<Dict>, s: Stage<Rendering>)
    requires extra.Failure? && newVars != []
    requires s == Stage(Failure(extra.error), [Prompted(newVars, extra)])
    ensures Asked(newVars, extra, s.events) && Yields(s)
    ensures forall x :: x in s.events ==> !x.Rendered? && !x.Diffed?
  {
  }

  /** Lines 52-57: the prompt is asked about exactly the new variables, only when there are
      some, and the renderings use its answers merged over the saved ones. */
  lemma PromptFacts(t: Tools, saved: Dict, newVars: Dict, tmp: Path)
    ensures var s := PromptStage(t, saved, newVars, tmp);
      var extra := ExtraContext(t, newVars);
      && Asked(newVars, extra, s.events) && Yields(s)
      && (s.result.Success? ==> extra.Success?)
      && (extra.Success? ==>
            var merged := Merge(saved, extra.value);
            && RenderedWith(tmp, merged, s.events)
            && (s.result.Success? ==>
                  && s.result.value.merged == merged
                  && RenderedEvent(t, tmp, OldSide, merged) in s.events
                  && RenderedEvent(t, tmp, NewSide, merged) in s.events))
      && (forall e :: e in s.events ==> !e.VariablesDetected? && !e.Cloned?)
  {
    var extra := ExtraContext(t, newVars);
    var s := PromptStage(t, saved, newVars, tmp);
    if extra.Success? {
      var merged := Merge(saved, extra.value);
      var rest := RenderOld(t, tmp, merged);
      RenderOldFacts(t, tmp, merged);
      AskedThenRendered(tmp, saved, newVars, extra, rest, s);
    } else {
      AskedAndStopped(newVars, extra, s);
    }
  }

  /** What holds of a stage from line 51 on: the detection, the prompt, the answers the
      renderings use and the patch. */
  predicate Detected(t: Tools, context: Dict, tmp: Path, s: Stage<Rendering>) {
    var dir := TemplateDir(tmp, NewSide);
    var detected := Detect(t, dir, SavedContext(context));
    var answers := Answers(t, context, tmp);
    && (forall e :: e in s.events && e.VariablesDetected? ==> e == VariablesDetected(dir, detected))
    && (VariablesDetected(dir, detected) in s.events && detected.Success? && detected.value != [] ==>
          Prompted(detected.value, ExtraContext(t, detected.value)) in s.events)
    && (forall e :: e in s.events && e.Prompted? ==>
          detected == Success(e.asked) && e.asked != [] && e.answers == ExtraContext(t, e.asked))
    && (forall e :: e in s.events && e.Rendered? ==> answers.Success?)
    && (answers.Success? ==> RenderedWith(tmp, answers.value, s.events))
    && (s.result.Success? ==>
          && answers.Success? && s.result.value.merged == answers.value
          && RenderedEvent(t, tmp, OldSide, answers.value) in s.events
          && RenderedEvent(t, tmp, NewSide, answers.value) in s.events)
    && Yields(s)
  }

  lemma DetectedThenAsked(t: Tools, context: Dict, tmp: Path, rest: Stage<Rendering>, s: Stage<Rendering>)
    requires var detected := Detect(t, TemplateDir(tmp, NewSide), SavedContext(context));
      && detected.Success?
      && var extra := ExtraContext(t, detected.value);
      && Asked(detected.value, extra, rest.events) && Yields(rest)
      && (rest.result.Success? ==> extra.Success?)
      && (extra.Success? ==>
            var merged := Merge(SavedContext(context).value, extra.value);
            && RenderedWith(tmp, merged, rest.events)
            && (rest.result.Success? ==>
                  && rest.result.value.merged == merged
                  && RenderedEvent(t, tmp, OldSide, merged) in rest.events
                  && RenderedEvent(t, tmp, NewSide, merged) in rest.events))
      && (forall e :: e in rest.events ==> !e.VariablesDetected? && !e.Cloned?)
      && s == Stage(rest.result, [VariablesDetected(TemplateDir(tmp, NewSide), detected)] + rest.events)
    ensures Detected(t, context, tmp, s)
    ensures forall e :: e in s.events ==> !e.Cloned?
  {
    var saved := SavedContext(context);
    var detected := Detect(t, TemplateDir(tmp, NewSide), saved);
    var extra := ExtraContext(t, detected.value);
    assert Answers(t, context, tmp) == if extra.Success? then Success(Merge(saved.value, extra.value)) else Failure(extra.error);
    var e := VariablesDetected(TemplateDir(tmp, NewSide), detected);
    assert forall x :: x in s.events <==> x == e || x in rest.events;
  }

  /** Line 51: the variables are detected in the new template, against the saved answers. */
  lemma DetectFacts(t: Tools, context: Dict, tmp: Path)
    ensures var s := DetectStage(t, context, tmp);
      && Detected(t, context, tmp, s)
      && VariablesDetected(TemplateDir(tmp, NewSide), Detect(t, TemplateDir(tmp, NewSide), SavedContext(context))) in s.events
      && (forall e :: e in s.events ==> !e.Cloned?)
  {
    var saved := SavedContext(context);
    var detected := Detect(t, TemplateDir(tmp, NewSide), saved);
    var s := DetectStage(t, context, tmp);
    if detected.Success? {
      PromptFacts(t, saved.value, detected.value, tmp);
      DetectedThenAsked(t, context, tmp, PromptStage(t, saved.value, detected.value, tmp), s);
    } else {
      DetectedAndStopped(t, context, tmp, s);
    }
  }

  lemma DetectedAndStopped(t: Tools, context: Dict, tmp: Path, s: Stage<Rendering>)
    requires var detected := Detect(t, TemplateDir(tmp, NewSide), SavedContext(context));
      && detected.Failure?
      && s == Stage(Failure(detected.error), [VariablesDetected(TemplateDir(tmp, NewSide), detected)])
    ensures Detected(t, context, tmp, s)
    ensures forall e :: e in s.events ==> !e.Cloned?
  {
  }

  /** A clone in front of a stage from line 51 on. */
  lemma ClonedFirst(t: Tools, context: Dict, tmp: Path, e: Event, rest: Stage<Rendering>, s: Stage<Rendering>)
    requires e.Cloned? && Detected(t, context, tmp, rest)
    requires s == Stage(rest.result, [e] + rest.events)
    ensures Detected(t, context, tmp, s)
    ensures forall x :: x in s.events <==> x == e || x in rest.events
  {
    assert forall x :: x in s.events <==> x == e || x in rest.events;
  }

  /** A clone that failed ends the stage. */
  lemma ClonedAndStopped(t: Tools, context: Dict, tmp: Path, e: Event, s: Stage<Rendering>)
    requires e.Cloned? && s.result.Failure? && s.events == [e]
    ensures Detected(t, context, tmp, s)
  {
    assert forall x :: x in s.events ==> x == e;
  }

  /** Line 48: the template at the head commit is cloned into the new template directory. */
  lemma CloneNewFacts(t: Tools, c: CruftConfig, head: string, tmp: Path)
    ensures var s := CloneNew(t, c, head, tmp);
      var latest := ClonedEvent(t, tmp, NewSide, c.template, head);
      && Detected(t, c.context, tmp, s)
      && latest in s.events
      && (forall e :: e in s.events && e.Cloned? ==> e == latest)
      && (forall e :: e in s.events && !e.Cloned? ==> latest.cloned.Success?)
      && (latest.cloned.Success? ==>
            VariablesDetected(TemplateDir(tmp, NewSide), Detect(t, TemplateDir(tmp, NewSide), SavedContext(c.context))) in s.events)
  {
    var latest := ClonedEvent(t, tmp, NewSide, c.template, head);
    var s := CloneNew(t, c, head, tmp);
    if latest.cloned.Success? {
      DetectFacts(t, c.context, tmp);
      ClonedFirst(t, c.context, tmp, latest, DetectStage(t, c.context, tmp), s);
    } else {
      ClonedAndStopped(t, c.context, tmp, latest, s);
    }
  }

  /** Which clones a stage logged: the old version at the recorded commit, then the new
      version at the head, and nothing else before both of them succeeded. */
  predicate Clones(t: Tools, c: CruftConfig, head: string, tmp: Path, events: seq<Event>) {
    var earlier := ClonedEvent(t, tmp, OldSide, c.template, c.commit);
    var latest := ClonedEvent(t, tmp, NewSide, c.template, head);
    && earlier in events
    && (forall e :: e in events && e.Cloned? ==> e == earlier || e == latest)
    && (latest in events ==> earlier.cloned.Success?)
    && (forall e :: e in events && !e.Cloned? ==> earlier.cloned.Success? && latest in events && latest.cloned.Success?)
  }

  /** Lines 45-67: the clones come first, and everything from line 51 on holds. */
  lemma InScopeFacts(t: Tools, c: CruftConfig, head: string, tmp: Path)
    ensures var s := InScope(t, c, head, tmp);
      && Clones(t, c, head, tmp, s.events)
      && Detected(t, c.context, tmp, s)
      && (ClonedEvent(t, tmp, NewSide, c.template, head) in s.events && ClonedEvent(t, tmp, NewSide, c.template, head).cloned.Success? ==>
            VariablesDetected(TemplateDir(tmp, NewSide), Detect(t, TemplateDir(tmp, NewSide), SavedContext(c.context))) in s.events)
  {
    var earlier := ClonedEvent(t, tmp, OldSide, c.template, c.commit);
    var s := InScope(t, c, head, tmp);
    if earlier.cloned.Success? {
      CloneNewFacts(t, c, head, tmp);
      ClonedFirst(t, c.context, tmp, earlier, CloneNew(t, c, head, tmp), s);
    } else {
      ClonedAndStopped(t, c.context, tmp, earlier, s);
      assert forall x :: x in s.events ==> x == earlier;
    }
  }
}
