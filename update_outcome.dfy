/** What a whole run of `rebake update` does to the project: when it writes the record and
    what it writes, which steps it takes inside the temporary directory, and when it patches. */
module UpdateOutcome {
  import opened Base
  import opened Json
  import opened Paths
  import opened Git
  import opened Config
  import opened Variables
  import opened Update
  import opened UpdateOrder
  import opened UpdateSteps

  /** The recorded configuration and the head commit a run works with, once the working tree
      is clean (lines 30-31), the record is loaded (line 33) and the head is resolved (line 35). */
  function Started(t: Tools, dir: Path, scratch: string, record: Option<Dict>): Option<(CruftConfig, string)> {
    var clean := IsWorkingTreeClean(t.run, dir).result;
    var loaded := Load(record);
    if clean != Success(true) || loaded.Failure? then None
    else
      var head := HeadCommit(t.run, loaded.value.template, loaded.value.checkout, scratch).result;
      if head.Failure? then None else Some((loaded.value, head.value))
  }

  /** The run `u` stopped before the temporary directory: it failed, kept `record` and
      logged no step after resolving the head. */
  predicate Stopped(u: UpdateRun, record: Option<Dict>) {
    && u.result.Failure?
    && u.record == record
    && forall e :: e in u.events ==> Rank(e) <= 2
  }

  /** The run `u` logged `opening` and then went on as `rest`. */
  predicate Continued(u: UpdateRun, opening: seq<Event>, rest: UpdateRun) {
    u.events == opening + rest.events && u.result == rest.result && u.record == rest.record
  }

  /** A run that does not get past line 35 fails, leaves the record alone and logs only the
      first three steps; one that does continues with the temporary directory. */
  lemma RunParts(t: Tools, dir: Path, tmp: Path, scratch: string, record: Option<Dict>)
    ensures var u := Run(t, dir, tmp, scratch, record);
      var st := Started(t, dir, scratch, record);
      && (st.None? ==> Stopped(u, record))
      && (st.Some? ==> Continued(u, Opening(dir, st.value.0, st.value.1), ScopeStage(t, dir, tmp, st.value.0, st.value.1, record)))
  {
    var clean := IsWorkingTreeClean(t.run, dir).result;
    var u := Run(t, dir, tmp, scratch, record);
    if clean != Success(true) {
      EarlyStop(u, [StatusChecked(dir, clean)], record);
    } else {
      LoadParts(t, dir, tmp, scratch, record, u);
    }
  }

  /** The first three steps of a run that gets as far as the temporary directory. */
  function Opening(dir: Path, c: CruftConfig, head: string): seq<Event> {
    [StatusChecked(dir, Success(true)), ConfigLoaded(Success(c)), HeadResolved(c.template, c.checkout, Success(head))]
  }

  lemma LoadParts(t: Tools, dir: Path, tmp: Path, scratch: string, record: Option<Dict>, u: UpdateRun)
    requires IsWorkingTreeClean(t.run, dir).result == Success(true)
    requires u == ThenRun(StatusChecked(dir, Success(true)), LoadStage(t, dir, tmp, scratch, record))
    ensures var st := Started(t, dir, scratch, record);
      && (st.None? ==> Stopped(u, record))
      && (st.Some? ==> Continued(u, Opening(dir, st.value.0, st.value.1), ScopeStage(t, dir, tmp, st.value.0, st.value.1, record)))
  {
    var loaded := Load(record);
    var v := LoadStage(t, dir, tmp, scratch, record);
    if loaded.Failure? {
      StopAfter(u, [StatusChecked(dir, Success(true))], v, ConfigLoaded(loaded), record);
    } else {
      var log := [StatusChecked(dir, Success(true)), ConfigLoaded(loaded)];
      Joined(u, StatusChecked(dir, Success(true)), ConfigLoaded(loaded), v, HeadStage(t, dir, tmp, scratch, loaded.value, record));
      HeadParts(t, dir, tmp, scratch, loaded.value, record, log, u);
    }
  }

  lemma HeadParts(t: Tools, dir: Path, tmp: Path, scratch: string, c: CruftConfig, record: Option<Dict>, log: seq<Event>, u: UpdateRun)
    requires log == [StatusChecked(dir, Success(true)), ConfigLoaded(Success(c))]
    requires Continued(u, log, HeadStage(t, dir, tmp, scratch, c, record))
    ensures var head := HeadCommit(t.run, c.template, c.checkout, scratch).result;
      && (head.Failure? ==> Stopped(u, record))
      && (head.Success? ==> Continued(u, Opening(dir, c, head.value), ScopeStage(t, dir, tmp, c, head.value, record)))
  {
    var head := HeadCommit(t.run, c.template, c.checkout, scratch).result;
    var v := HeadStage(t, dir, tmp, scratch, c, record);
    if head.Failure? {
      StopAfter(u, log, v, HeadResolved(c.template, c.checkout, head), record);
    } else {
      Opened(dir, c, head.value, log, u, v, ScopeStage(t, dir, tmp, c, head.value, record));
    }
  }

  /** The step `e` that ended the stage `v` ends the run `u` too. */
  lemma StopAfter(u: UpdateRun, log: seq<Event>, v: UpdateRun, e: Event, record: Option<Dict>)
    requires Continued(u, log, v)
    requires v.result.Failure? && v.record == record && v.events == [e]
    requires forall i :: 0 <= i < |log| ==> log[i].StatusChecked? || log[i].ConfigLoaded?
    requires e.ConfigLoaded? || e.HeadResolved?
    ensures Stopped(u, record)
  {
    EarlyStop(u, log + [e], record);
  }

  lemma Joined(u: UpdateRun, first: Event, second: Event, v: UpdateRun, rest: UpdateRun)
    requires u == ThenRun(first, v) && v == ThenRun(second, rest)
    ensures Continued(u, [first, second], rest)
  {
  }

  lemma Opened(dir: Path, c: CruftConfig, head: string, log: seq<Event>, u: UpdateRun, v: UpdateRun, rest: UpdateRun)
    requires log == [StatusChecked(dir, Success(true)), ConfigLoaded(Success(c))]
    requires Continued(u, log, v) && v == ThenRun(HeadResolved(c.template, c.checkout, Success(head)), rest)
    ensures Continued(u, Opening(dir, c, head), rest)
  {
    assert log + ([HeadResolved(c.template, c.checkout, Success(head))] + rest.events) == Opening(dir, c, head) + rest.events;
  }

  lemma EarlyStop(u: UpdateRun, steps: seq<Event>, record: Option<Dict>)
    requires u.result.Failure? && u.record == record && u.events == steps
    requires forall i :: 0 <= i < |steps| ==> steps[i].StatusChecked? || steps[i].ConfigLoaded? || steps[i].HeadResolved?
    ensures Stopped(u, record)
  {
  }
  /** The steps logged inside the temporary directory, with its creation and removal. */
  function Within(tmp: Path, events: seq<Event>): seq<Event> {
    [TempDirCreated(tmp)] + events + [TempDirRemoved(tmp)]
  }

  /** Lines 41-67: the directory is removed whether or not the work inside it succeeded, and
      only a successful rendering goes on to the patch and the record. */
  lemma ScopeParts(t: Tools, dir: Path, tmp: Path, c: CruftConfig, head: string, record: Option<Dict>)
    ensures var u := ScopeStage(t, dir, tmp, c, head, record);
      var inner := InScope(t, c, head, tmp);
      && (inner.result.Failure? ==> u == UpdateRun(Failure(inner.result.error), Within(tmp, inner.events), record))
      && (inner.result.Success? ==> Continued(u, Within(tmp, inner.events), ApplyStage(t, dir, c, head, inner.result.value, record)))
  {
  }

  /** What lines 69-90 do with `rendering`: a patch only when it is not empty, the record
      only when the patch did not fail. */
  predicate Applies(t: Tools, dir: Path, c: CruftConfig, head: string, rendering: Rendering, record: Option<Dict>, a: UpdateRun) {
    Applied(rendering.patch, PatchApplied(rendering.patch, dir, ApplyPatch(t.run, rendering.patch, dir).result),
            Save(Advanced(c, head, rendering.merged)), record, a)
  }

  /** The steps `a` after the temporary directory, with `p` the step that applies `patch` and
      `data` the record to be saved. */
  predicate Applied(patch: string, p: Event, data: Dict, record: Option<Dict>, a: UpdateRun) {
    && p.PatchApplied? && p.patch == patch
    && (a.result.Failure? <==> patch != "" && p.applied.Failure?)
    && (patch == "" ==> a.result == Success(NoChanges))
    && a.events == (if patch == "" then [] else [p]) + (if a.result.Success? then [ConfigSaved(data)] else [])
    && a.record == if a.result.Success? then Some(data) else record
  }

  lemma ApplyFacts(t: Tools, dir: Path, c: CruftConfig, head: string, rendering: Rendering, record: Option<Dict>)
    ensures Applies(t, dir, c, head, rendering, record, ApplyStage(t, dir, c, head, rendering, record))
  {
    var applied := PatchStage(t, dir, rendering.patch);
    if rendering.patch != "" {
      var r := ApplyPatch(t.run, rendering.patch, dir).result;
      assert applied.result.Failure? <==> r.Failure?;
    }
  }

  /** Lines 69-90: a patch whose clean apply fails still leaves the project's record moved to
      the head: the run reports the rejected hunks with the `--reject` attempt's stderr, and
      saving the record is its last step. */
  lemma SavedAfterPartialApply(t: Tools, dir: Path, c: CruftConfig, head: string, rendering: Rendering, record: Option<Dict>)
    ensures var a := ApplyStage(t, dir, c, head, rendering, record);
      var applied := ApplyPatch(t.run, rendering.patch, dir).result;
      rendering.patch != "" && applied.Success? && !applied.value.0 ==>
        && a.result == Success(HunksRejected(applied.value.1))
        && a.record == Some(Save(Advanced(c, head, rendering.merged)))
        && a.events == [PatchApplied(rendering.patch, dir, applied), ConfigSaved(a.record.value)]
  {
    var applied := ApplyPatch(t.run, rendering.patch, dir).result;
    if rendering.patch != "" && applied.Success? && !applied.value.0 {
      var a := ApplyStage(t, dir, c, head, rendering, record);
      var p := PatchApplied(rendering.patch, dir, applied);
      var data := Save(Advanced(c, head, rendering.merged));
      ApplyFacts(t, dir, c, head, rendering, record);
      RejectedStage(t, dir, rendering.patch);
      ApplyResult(t, dir, c, head, rendering, record);
      assert Applied(rendering.patch, p, data, record, a);
      RejectedSaved(rendering.patch, p, data, record, a);
    }
  }

  lemma RejectedSaved(patch: string, p: Event, data: Dict, record: Option<Dict>, a: UpdateRun)
    requires Applied(patch, p, data, record, a) && patch != "" && a.result.Success?
    ensures a.record == Some(data) && a.events == [p, ConfigSaved(data)]
  {
  }

  /** The clean apply failed, so the patch stage reports the rejected hunks. */
  lemma RejectedStage(t: Tools, dir: Path, patch: string)
    requires patch != "" && ApplyPatch(t.run, patch, dir).result.Success? && !ApplyPatch(t.run, patch, dir).result.value.0
    ensures var applied := ApplyPatch(t.run, patch, dir).result;
      PatchStage(t, dir, patch).result == Success(HunksRejected(applied.value.1))
  {
  }

  /** A patch stage that did not fail gives the result of lines 69-90. */
  lemma ApplyResult(t: Tools, dir: Path, c: CruftConfig, head: string, rendering: Rendering, record: Option<Dict>)
    ensures PatchStage(t, dir, rendering.patch).result.Success? ==>
      ApplyStage(t, dir, c, head, rendering, record).result == PatchStage(t, dir, rendering.patch).result
  {
  }

  /** What the steps inside the temporary directory establish (lines 45-67), and that they all
      come after its creation and before its removal. */
  predicate Inside(t: Tools, c: CruftConfig, head: string, tmp: Path, inner: Stage<Rendering>) {
    var latest := ClonedEvent(t, tmp, NewSide, c.template, head);
    var dir := TemplateDir(tmp, NewSide);
    && Clones(t, c, head, tmp, inner.events)
    && Detected(t, c.context, tmp, inner)
    && (latest in inner.events && latest.cloned.Success? ==>
          VariablesDetected(dir, Detect(t, dir, SavedContext(c.context))) in inner.events)
    && (forall e :: e in inner.events ==> 4 <= Rank(e) < 11)
  }

  lemma InsideFacts(t: Tools, c: CruftConfig, head: string, tmp: Path)
    ensures Inside(t, c, head, tmp, InScope(t, c, head, tmp))
  {
    InScopeFacts(t, c, head, tmp);
    InScopeOrder(t, c, head, tmp);
    AscendingBounds(InScope(t, c, head, tmp).events, 4, 11);
  }

  /** The run `u` once it got past line 35 with the record `c` and the head `head`: the steps
      `inner` inside the temporary directory and, when they succeeded, the steps `a` after it. */
  ghost predicate Assembled(t: Tools, dir: Path, tmp: Path, record: Option<Dict>, c: CruftConfig, head: string,
                            u: UpdateRun, inner: Stage<Rendering>, a: UpdateRun) {
    && Inside(t, c, head, tmp, inner)
    && (inner.result.Success? ==> Applies(t, dir, c, head, inner.result.value, record, a))
    && Layout(Opening(dir, c, head), tmp, record, u, inner, a)
  }

  /** How the steps of `u` are laid out: `opening`, then the temporary directory around
      `inner`, then `a` when `inner` succeeded. */
  ghost predicate Layout(opening: seq<Event>, tmp: Path, record: Option<Dict>, u: UpdateRun, inner: Stage<Rendering>, a: UpdateRun) {
    var pre := opening + Within(tmp, inner.events);
    && (inner.result.Failure? ==> u.result.Failure? && u.record == record && u.events == pre)
    && (inner.result.Success? ==> u.result == a.result && u.record == a.record && u.events == pre + a.events)
    && (forall x :: x in u.events <==>
          || x in opening || x == TempDirCreated(tmp) || x in inner.events || x == TempDirRemoved(tmp)
          || (inner.result.Success? && x in a.events))
  }

  /** The steps after the temporary directory, when there are any. */
  function Tail(t: Tools, dir: Path, c: CruftConfig, head: string, inner: Stage<Rendering>, record: Option<Dict>): UpdateRun {
    if inner.result.Success? then ApplyStage(t, dir, c, head, inner.result.value, record)
    else UpdateRun(Failure(inner.result.error), [], record)
  }

  lemma Assemble(opening: seq<Event>, tmp: Path, record: Option<Dict>, u: UpdateRun, rest: UpdateRun, inner: Stage<Rendering>, a: UpdateRun)
    requires Continued(u, opening, rest)
    requires inner.result.Failure? ==> rest == UpdateRun(Failure(inner.result.error), Within(tmp, inner.events), record)
    requires inner.result.Success? ==> Continued(rest, Within(tmp, inner.events), a)
    ensures Layout(opening, tmp, record, u, inner, a)
  {
    var pre := opening + Within(tmp, inner.events);
    if inner.result.Success? {
      assert u.events == pre + a.events;
    }
  }

  /** Lines 41-90 put together, for a run that got past line 35. */
  lemma Reached(t: Tools, dir: Path, tmp: Path, scratch: string, record: Option<Dict>)
    requires Started(t, dir, scratch, record).Some?
    ensures var st := Started(t, dir, scratch, record);
      var inner := InScope(t, st.value.0, st.value.1, tmp);
      Assembled(t, dir, tmp, record, st.value.0, st.value.1, Run(t, dir, tmp, scratch, record), inner,
                Tail(t, dir, st.value.0, st.value.1, inner, record))
  {
    var st := Started(t, dir, scratch, record);
    var c := st.value.0;
    var head := st.value.1;
    var inner := InScope(t, c, head, tmp);
    RunParts(t, dir, tmp, scratch, record);
    ScopeParts(t, dir, tmp, c, head, record);
    InsideFacts(t, c, head, tmp);
    if inner.result.Success? {
      ApplyFacts(t, dir, c, head, inner.result.value, record);
    }
    Assemble(Opening(dir, c, head), tmp, record, Run(t, dir, tmp, scratch, record), ScopeStage(t, dir, tmp, c, head, record),
             inner, Tail(t, dir, c, head, inner, record));
  }

  /** Lines 69-90: a failed run leaves the record as it was, and the record is saved only as
      the very last step, with the data the run leaves behind. */
  ghost predicate KeepsRecord(record: Option<Dict>, u: UpdateRun) {
    && (u.result.Failure? ==> u.record == record && forall e :: e in u.events ==> !e.ConfigSaved?)
    && (forall i :: 0 <= i < |u.events| && u.events[i].ConfigSaved? ==>
          i == |u.events| - 1 && u.record == Some(u.events[i].data))
  }

  /** Lines 88-90: a successful run records the head commit and the merged answers. */
  ghost predicate Persists(t: Tools, tmp: Path, st: Option<(CruftConfig, string)>, u: UpdateRun) {
    u.result.Success? ==>
      && st.Some?
      && var answers := Answers(t, st.value.0.context, tmp);
      && answers.Success?
      && u.record == Some(Save(Advanced(st.value.0, st.value.1, answers.value)))
      && |u.events| > 0 && u.events[|u.events| - 1] == ConfigSaved(u.record.value)
  }

  lemma SavedLastOf(pre: seq<Event>, tail: seq<Event>, events: seq<Event>)
    requires events == pre + tail
    requires forall x :: x in pre ==> !x.ConfigSaved?
    requires forall i :: 0 <= i < |tail| && tail[i].ConfigSaved? ==> i == |tail| - 1
    ensures forall i :: 0 <= i < |events| && events[i].ConfigSaved? ==> i == |events| - 1 && events[i] == tail[|tail| - 1]
  {
    forall i | 0 <= i < |events| && events[i].ConfigSaved?
      ensures i == |events| - 1 && events[i] == tail[|tail| - 1]
    {
      if i >= |pre| {
        assert events[i] == tail[i - |pre|];
      }
    }
  }

  /** No step before the patch saves the record. */
  lemma NothingSavedBefore(opening: seq<Event>, tmp: Path, inner: Stage<Rendering>)
    requires forall e :: e in opening ==> Rank(e) <= 2
    requires forall e :: e in inner.events ==> 4 <= Rank(e) < 11
    ensures forall x :: x in opening + Within(tmp, inner.events) ==> Rank(x) <= 11 && !x.ConfigSaved? && !x.PatchApplied?
  {
  }

  lemma OpeningRanks(dir: Path, c: CruftConfig, head: string)
    ensures forall e :: e in Opening(dir, c, head) ==> Rank(e) <= 2
  {
    EarlyStop(UpdateRun(Failure(UncommittedChanges), Opening(dir, c, head), None), Opening(dir, c, head), None);
  }

  lemma KeptReached(opening: seq<Event>, tmp: Path, record: Option<Dict>, u: UpdateRun, inner: Stage<Rendering>,
                    a: UpdateRun, p: Event, data: Dict)
    requires Layout(opening, tmp, record, u, inner, a)
    requires forall e :: e in opening ==> Rank(e) <= 2
    requires forall e :: e in inner.events ==> 4 <= Rank(e) < 11
    requires inner.result.Success? ==> Applied(inner.result.value.patch, p, data, record, a)
    ensures KeepsRecord(record, u)
  {
    var pre := opening + Within(tmp, inner.events);
    NothingSavedBefore(opening, tmp, inner);
    if inner.result.Success? {
      SavedLastOf(pre, a.events, u.events);
      if a.result.Success? {
        assert a.events[|a.events| - 1] == ConfigSaved(data);
      }
    } else {
      SavedLastOf(pre, [], u.events);
    }
  }

  lemma SavedReached(opening: seq<Event>, tmp: Path, record: Option<Dict>, u: UpdateRun, inner: Stage<Rendering>,
                     a: UpdateRun, p: Event, data: Dict)
    requires Layout(opening, tmp, record, u, inner, a)
    requires inner.result.Success? ==> Applied(inner.result.value.patch, p, data, record, a)
    ensures u.result.Success? ==>
      && inner.result.Success? && u.record == Some(data)
      && |u.events| > 0 && u.events[|u.events| - 1] == ConfigSaved(data)
  {
    if u.result.Success? {
      assert a.events[|a.events| - 1] == ConfigSaved(data);
    }
  }

  /** Lines 51-57: the detection is made against the recorded answers, the prompt asks for
      exactly the new variables, and only when there are some. */
  ghost predicate PromptsOnlyNew(t: Tools, tmp: Path, st: Option<(CruftConfig, string)>, u: UpdateRun) {
    var dir := TemplateDir(tmp, NewSide);
    && (forall e :: e in u.events && e.VariablesDetected? ==>
          st.Some? && e == VariablesDetected(dir, Detect(t, dir, SavedContext(st.value.0.context))))
    && (forall e :: e in u.events && e.Prompted? ==>
          e.asked != [] && e.answers == ExtraContext(t, e.asked) && VariablesDetected(dir, Success(e.asked)) in u.events)
    && (forall e :: e in u.events && e.VariablesDetected? && e.newVars.Success? && e.newVars.value != [] ==>
          Prompted(e.newVars.value, ExtraContext(t, e.newVars.value)) in u.events)
  }

  /** Lines 57-65: both template versions are rendered with the same answers, the recorded ones
      merged with the new, from the clones into the temporary directory. */
  ghost predicate RendersAlike(t: Tools, tmp: Path, st: Option<(CruftConfig, string)>, u: UpdateRun) {
    && (forall e :: e in u.events && e.Rendered? ==>
          && st.Some? && Answers(t, st.value.0.context, tmp).Success?
          && e.context == Answers(t, st.value.0.context, tmp).value
          && e.templateDir == TemplateDir(tmp, e.side) && e.outputDir == OutputDir(tmp, e.side))
    && (u.result.Success? ==>
          && st.Some?
          && var answers := Answers(t, st.value.0.context, tmp);
          && answers.Success?
          && RenderedEvent(t, tmp, OldSide, answers.value) in u.events
          && RenderedEvent(t, tmp, NewSide, answers.value) in u.events)
  }

  /** Lines 69-83: the diff is applied to the project exactly when it is not empty, and an
      empty diff is reported as no changes. */
  ghost predicate PatchesWhenChanged(t: Tools, dir: Path, u: UpdateRun) {
    && (forall d :: d in u.events && d.Diffed? ==>
          (d.patch != "" <==> PatchApplied(d.patch, dir, ApplyPatch(t.run, d.patch, dir).result) in u.events))
    && (forall d :: d in u.events && d.Diffed? && d.patch == "" ==> u.result == Success(NoChanges))
    && (forall p :: p in u.events && p.PatchApplied? ==>
          p.dir == dir && p.patch != "" && exists d :: d in u.events && d.Diffed? && d.patch == p.patch)
  }

  /** Lines 47-48: the template is cloned at the recorded commit and at the head, into the
      temporary directory, and nothing is detected, asked, rendered or diffed unless both
      clones succeeded. */
  ghost predicate ClonesFirst(t: Tools, tmp: Path, st: Option<(CruftConfig, string)>, u: UpdateRun) {
    && (forall e :: e in u.events && e.Cloned? ==>
          && st.Some?
          && e == ClonedEvent(t, tmp, e.side, st.value.0.template, if e.side == OldSide then st.value.0.commit else st.value.1))
    && (st.Some? ==> ClonedEvent(t, tmp, OldSide, st.value.0.template, st.value.0.commit) in u.events)
    && (forall e :: e in u.events && (e.VariablesDetected? || e.Prompted? || e.Rendered? || e.Diffed?) ==>
          && st.Some?
          && var earlier := ClonedEvent(t, tmp, OldSide, st.value.0.template, st.value.0.commit);
          && var latest := ClonedEvent(t, tmp, NewSide, st.value.0.template, st.value.1);
          && earlier in u.events && earlier.cloned.Success? && latest in u.events && latest.cloned.Success?)
  }

  /** Line 41: the temporary directory is created exactly when the run gets past line 35, and
      then it is removed, whatever happens inside it. */
  ghost predicate Scopes(tmp: Path, st: Option<(CruftConfig, string)>, u: UpdateRun) {
    && (TempDirCreated(tmp) in u.events <==> st.Some?)
    && (TempDirRemoved(tmp) in u.events <==> st.Some?)
  }

  /** A step taken inside the temporary directory, after its creation. */
  predicate InnerKind(e: Event) {
    e.Cloned? || e.VariablesDetected? || e.Prompted? || e.Rendered? || e.Diffed?
  }

  /** `u` logged every step of `inner`, and no such step elsewhere. */
  ghost predicate Embeds(u: UpdateRun, inner: Stage<Rendering>) {
    && (forall x :: x in inner.events ==> x in u.events)
    && (forall x :: x in u.events && InnerKind(x) ==> x in inner.events)
  }

  lemma EmbedsReached(opening: seq<Event>, tmp: Path, record: Option<Dict>, u: UpdateRun, inner: Stage<Rendering>,
                      a: UpdateRun, p: Event, data: Dict)
    requires Layout(opening, tmp, record, u, inner, a)
    requires forall e :: e in opening ==> Rank(e) <= 2
    requires inner.result.Success? ==> Applied(inner.result.value.patch, p, data, record, a)
    ensures Embeds(u, inner)
    ensures u.result.Success? ==> inner.result.Success?
  {
    if inner.result.Success? {
      AppliedSteps(inner.result.value.patch, p, data, record, a);
    }
  }

  lemma PromptsReached(t: Tools, tmp: Path, c: CruftConfig, head: string, u: UpdateRun, inner: Stage<Rendering>)
    requires Inside(t, c, head, tmp, inner) && Embeds(u, inner)
    ensures PromptsOnlyNew(t, tmp, Some((c, head)), u)
  {
  }

  lemma RendersReached(t: Tools, tmp: Path, c: CruftConfig, head: string, u: UpdateRun, inner: Stage<Rendering>)
    requires Inside(t, c, head, tmp, inner) && Embeds(u, inner)
    requires u.result.Success? ==> inner.result.Success?
    ensures RendersAlike(t, tmp, Some((c, head)), u)
  {
  }

  lemma ClonesReached(t: Tools, tmp: Path, c: CruftConfig, head: string, u: UpdateRun, inner: Stage<Rendering>)
    requires Inside(t, c, head, tmp, inner) && Embeds(u, inner)
    ensures ClonesFirst(t, tmp, Some((c, head)), u)
  {
  }

  lemma PatchesReached(t: Tools, dir: Path, opening: seq<Event>, tmp: Path, record: Option<Dict>, u: UpdateRun,
                       inner: Stage<Rendering>, a: UpdateRun, data: Dict)
    requires Layout(opening, tmp, record, u, inner, a) && Embeds(u, inner) && Yields(inner)
    requires forall e :: e in opening ==> Rank(e) <= 2
    requires forall e :: e in inner.events ==> 4 <= Rank(e) < 11
    requires inner.result.Success? ==>
      var patch := inner.result.value.patch;
      Applied(patch, PatchApplied(patch, dir, ApplyPatch(t.run, patch, dir).result), data, record, a)
    ensures PatchesWhenChanged(t, dir, u)
  {
    Located(opening, tmp, record, u, inner, a);
    if inner.result.Success? {
      var patch := inner.result.value.patch;
      var p := PatchApplied(patch, dir, ApplyPatch(t.run, patch, dir).result);
      AppliedSteps(patch, p, data, record, a);
      PatchedIff(t, dir, u, inner, a, p, data);
    }
  }

  /** Where the diff and the patch of `u` come from: the diff from `inner`, the patch from `a`. */
  lemma Located(opening: seq<Event>, tmp: Path, record: Option<Dict>, u: UpdateRun, inner: Stage<Rendering>, a: UpdateRun)
    requires Layout(opening, tmp, record, u, inner, a) && Embeds(u, inner) && Yields(inner)
    requires forall e :: e in opening ==> Rank(e) <= 2
    requires forall e :: e in inner.events ==> 4 <= Rank(e) < 11
    ensures forall x :: x in u.events && x.PatchApplied? ==> inner.result.Success? && x in a.events
    ensures forall d :: d in u.events && d.Diffed? ==> inner.result.Success? && inner.result.value.patch == d.patch
    ensures inner.result.Success? ==> (forall x :: x in a.events ==> x in u.events) && u.result == a.result
  {
    forall x | x in u.events && x.PatchApplied?
      ensures inner.result.Success? && x in a.events
    {
      assert Rank(x) == 12;
    }
    forall d | d in u.events && d.Diffed?
      ensures inner.result.Success? && inner.result.value.patch == d.patch
    {
      assert d in inner.events;
    }
  }

  lemma PatchedIff(t: Tools, dir: Path, u: UpdateRun, inner: Stage<Rendering>, a: UpdateRun, p: Event, data: Dict)
    requires inner.result.Success? && Embeds(u, inner) && Yields(inner)
    requires var patch := inner.result.value.patch;
      && p == PatchApplied(patch, dir, ApplyPatch(t.run, patch, dir).result)
      && (forall x :: x in a.events <==> (patch != "" && x == p) || (a.result.Success? && x == ConfigSaved(data)))
      && (patch == "" ==> a.result == Success(NoChanges))
    requires forall x :: x in u.events && x.PatchApplied? ==> x in a.events
    requires forall d :: d in u.events && d.Diffed? ==> inner.result.value.patch == d.patch
    requires (forall x :: x in a.events ==> x in u.events) && u.result == a.result
    ensures PatchesWhenChanged(t, dir, u)
  {
    var d :| d in inner.events && d.Diffed?;
    assert d in u.events;
  }

  lemma ScopesReached(opening: seq<Event>, tmp: Path, record: Option<Dict>, u: UpdateRun, inner: Stage<Rendering>, a: UpdateRun)
    requires Layout(opening, tmp, record, u, inner, a)
    ensures TempDirCreated(tmp) in u.events && TempDirRemoved(tmp) in u.events
  {
  }

  lemma AppliedSteps(patch: string, p: Event, data: Dict, record: Option<Dict>, a: UpdateRun)
    requires Applied(patch, p, data, record, a)
    ensures forall x :: x in a.events <==> (patch != "" && x == p) || (a.result.Success? && x == ConfigSaved(data))
  {
    if patch == "" {
      assert a.events == (if a.result.Success? then [ConfigSaved(data)] else []);
    } else if a.result.Success? {
      assert a.events == [p, ConfigSaved(data)];
    } else {
      assert a.events == [p];
    }
  }

  /** Everything a run promises, given the record and the head it started from (None when it
      stopped before the temporary directory). */
  ghost predicate Outcome(t: Tools, dir: Path, tmp: Path, record: Option<Dict>, st: Option<(CruftConfig, string)>, u: UpdateRun) {
    && KeepsRecord(record, u)
    && Persists(t, tmp, st, u)
    && PromptsOnlyNew(t, tmp, st, u)
    && RendersAlike(t, tmp, st, u)
    && PatchesWhenChanged(t, dir, u)
    && ClonesFirst(t, tmp, st, u)
    && Scopes(tmp, st, u)
  }

  lemma StoppedOutcome(t: Tools, dir: Path, tmp: Path, record: Option<Dict>, u: UpdateRun)
    requires Stopped(u, record)
    ensures Outcome(t, dir, tmp, record, None, u)
  {
    OnlyOpening(u.events);
  }

  lemma OnlyOpening(events: seq<Event>)
    requires forall e :: e in events ==> Rank(e) <= 2
    ensures forall e :: e in events ==> e.StatusChecked? || e.ConfigLoaded? || e.HeadResolved?
  {
  }

  lemma ReachedOutcome(t: Tools, dir: Path, tmp: Path, record: Option<Dict>, c: CruftConfig, head: string,
                       u: UpdateRun, inner: Stage<Rendering>, a: UpdateRun)
    requires Assembled(t, dir, tmp, record, c, head, u, inner, a)
    ensures Outcome(t, dir, tmp, record, Some((c, head)), u)
  {
    EmbedsAssembled(t, dir, tmp, record, c, head, u, inner, a);
    ReachedRecord(t, dir, tmp, record, c, head, u, inner, a);
    PromptsReached(t, tmp, c, head, u, inner);
    RendersReached(t, tmp, c, head, u, inner);
    ClonesReached(t, tmp, c, head, u, inner);
    ReachedPatch(t, dir, tmp, record, c, head, u, inner, a);
  }

  lemma EmbedsAssembled(t: Tools, dir: Path, tmp: Path, record: Option<Dict>, c: CruftConfig, head: string,
                        u: UpdateRun, inner: Stage<Rendering>, a: UpdateRun)
    requires Layout(Opening(dir, c, head), tmp, record, u, inner, a)
    requires inner.result.Success? ==> Applies(t, dir, c, head, inner.result.value, record, a)
    ensures Embeds(u, inner)
    ensures u.result.Success? ==> inner.result.Success?
  {
    OpeningRanks(dir, c, head);
    var rendering := if inner.result.Success? then inner.result.value else Rendering([], "");
    var p := PatchApplied(rendering.patch, dir, ApplyPatch(t.run, rendering.patch, dir).result);
    EmbedsReached(Opening(dir, c, head), tmp, record, u, inner, a, p, Save(Advanced(c, head, rendering.merged)));
  }

  lemma ReachedRecord(t: Tools, dir: Path, tmp: Path, record: Option<Dict>, c: CruftConfig, head: string,
                      u: UpdateRun, inner: Stage<Rendering>, a: UpdateRun)
    requires Assembled(t, dir, tmp, record, c, head, u, inner, a)
    ensures KeepsRecord(record, u) && Persists(t, tmp, Some((c, head)), u) && Scopes(tmp, Some((c, head)), u)
  {
    var opening := Opening(dir, c, head);
    OpeningRanks(dir, c, head);
    var rendering := if inner.result.Success? then inner.result.value else Rendering([], "");
    var p := PatchApplied(rendering.patch, dir, ApplyPatch(t.run, rendering.patch, dir).result);
    var data := Save(Advanced(c, head, rendering.merged));
    KeptReached(opening, tmp, record, u, inner, a, p, data);
    SavedReached(opening, tmp, record, u, inner, a, p, data);
    ScopesReached(opening, tmp, record, u, inner, a);
  }

  lemma ReachedPatch(t: Tools, dir: Path, tmp: Path, record: Option<Dict>, c: CruftConfig, head: string,
                     u: UpdateRun, inner: Stage<Rendering>, a: UpdateRun)
    requires Assembled(t, dir, tmp, record, c, head, u, inner, a) && Embeds(u, inner)
    ensures PatchesWhenChanged(t, dir, u)
  {
    OpeningRanks(dir, c, head);
    var merged := if inner.result.Success? then inner.result.value.merged else [];
    PatchesReached(t, dir, Opening(dir, c, head), tmp, record, u, inner, a, Save(Advanced(c, head, merged)));
  }

  /** Every run of `run_update` keeps the promises of `Outcome`. */
  lemma RunFacts(t: Tools, dir: Path, tmp: Path, scratch: string, record: Option<Dict>)
    ensures Outcome(t, dir, tmp, record, Started(t, dir, scratch, record), Run(t, dir, tmp, scratch, record))
  {
    var st := Started(t, dir, scratch, record);
    var u := Run(t, dir, tmp, scratch, record);
    RunParts(t, dir, tmp, scratch, record);
    if st.None? {
      StoppedOutcome(t, dir, tmp, record, u);
    } else {
      var inner := InScope(t, st.value.0, st.value.1, tmp);
      Reached(t, dir, tmp, scratch, record);
      ReachedOutcome(t, dir, tmp, record, st.value.0, st.value.1, u, inner, Tail(t, dir, st.value.0, st.value.1, inner, record));
    }
  }

  /** Lines 30-31 and 69-90: a project with uncommitted changes is left alone, a failed run
      leaves the record as it was, and the record is saved only as the run's last step. */
  lemma FailureKeepsRecord(t: Tools, dir: Path, tmp: Path, scratch: string, record: Option<Dict>)
    ensures var u := Run(t, dir, tmp, scratch, record);
      && KeepsRecord(record, u)
      && (IsWorkingTreeClean(t.run, dir).result == Success(false) ==>
            u == UpdateRun(Failure(UncommittedChanges), [StatusChecked(dir, Success(false))], record))
  {
    RunFacts(t, dir, tmp, scratch, record);
  }

  /** Lines 88-90: after a successful run the record loads back as the old one moved to the
      head commit, with the answers both renderings used. */
  lemma SuccessRecordsHead(t: Tools, dir: Path, tmp: Path, scratch: string, record: Option<Dict>)
    ensures var u := Run(t, dir, tmp, scratch, record);
      var st := Started(t, dir, scratch, record);
      && Persists(t, tmp, st, u)
      && (u.result.Success? ==>
            var c := st.value.0;
            var head := st.value.1;
            var updated := Advanced(c, head, Answers(t, c.context, tmp).value);
            && Load(u.record) == Success(updated)
            && updated.commit == head
            && updated.template == c.template && updated.checkout == c.checkout && updated.skip == c.skip
            && Get(updated.context, "cookiecutter") == Some(Object(Answers(t, c.context, tmp).value))
            && forall k :: k != "cookiecutter" ==> Get(updated.context, k) == Get(c.context, k))
  {
    RunFacts(t, dir, tmp, scratch, record);
    var u := Run(t, dir, tmp, scratch, record);
    if u.result.Success? {
      var st := Started(t, dir, scratch, record);
      LoadSave(Advanced(st.value.0, st.value.1, Answers(t, st.value.0.context, tmp).value));
    }
  }

  lemma PromptsOnlyForNewVariables(t: Tools, dir: Path, tmp: Path, scratch: string, record: Option<Dict>)
    ensures PromptsOnlyNew(t, tmp, Started(t, dir, scratch, record), Run(t, dir, tmp, scratch, record))
  {
    RunFacts(t, dir, tmp, scratch, record);
  }

  lemma BothVersionsRenderedAlike(t: Tools, dir: Path, tmp: Path, scratch: string, record: Option<Dict>)
    ensures RendersAlike(t, tmp, Started(t, dir, scratch, record), Run(t, dir, tmp, scratch, record))
  {
    RunFacts(t, dir, tmp, scratch, record);
  }

  lemma PatchOnlyWhenChanged(t: Tools, dir: Path, tmp: Path, scratch: string, record: Option<Dict>)
    ensures PatchesWhenChanged(t, dir, Run(t, dir, tmp, scratch, record))
  {
    RunFacts(t, dir, tmp, scratch, record);
  }

  lemma ClonesBeforeDetection(t: Tools, dir: Path, tmp: Path, scratch: string, record: Option<Dict>)
    ensures ClonesFirst(t, tmp, Started(t, dir, scratch, record), Run(t, dir, tmp, scratch, record))
  {
    RunFacts(t, dir, tmp, scratch, record);
  }

  lemma TempDirAlwaysRemoved(t: Tools, dir: Path, tmp: Path, scratch: string, record: Option<Dict>)
    ensures Scopes(tmp, Started(t, dir, scratch, record), Run(t, dir, tmp, scratch, record))
  {
    RunFacts(t, dir, tmp, scratch, record);
  }
}
