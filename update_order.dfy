/** The order of the steps of `rebake update`: each stage of `Update.Run` logs its steps in
    pipeline order, and so does a whole run. */
module UpdateOrder {
  import opened Base
  import opened Json
  import opened Paths
  import opened Git
  import opened Config
  import opened Update

  /** The place of each step in the pipeline of `run_update`. */
  function Rank(e: Event): nat {
    if e.StatusChecked? then 0
    else if e.ConfigLoaded? then 1
    else if e.HeadResolved? then 2
    else if e.TempDirCreated? then 3
    else if e.Cloned? then (if e.side == OldSide then 4 else 5)
    else if e.VariablesDetected? then 6
    else if e.Prompted? then 7
    else if e.Rendered? then (if e.side == OldSide then 8 else 9)
    else if e.Diffed? then 10
    else if e.TempDirRemoved? then 11
    else if e.PatchApplied? then 12
    else 13
  }

  /** The steps were taken in pipeline order, none of them twice. */
  predicate InOrder(events: seq<Event>) {
    forall i, j :: 0 <= i < j < |events| ==> Rank(events[i]) < Rank(events[j])
  }

  /** `InOrder`, for steps whose places lie in `[lo, hi)`, told by neighbours. */
  predicate Ascending(events: seq<Event>, lo: nat, hi: nat) {
    && (forall i :: 0 <= i < |events| ==> lo <= Rank(events[i]) < hi)
    && (forall i :: 0 < i < |events| ==> Rank(events[i - 1]) < Rank(events[i]))
  }

  /** Steps of an earlier part of the pipeline followed by steps of a later part are in order. */
  lemma AscendingAppend(a: seq<Event>, b: seq<Event>, lo: nat, mid: nat, hi: nat)
    requires lo <= mid <= hi && Ascending(a, lo, mid) && Ascending(b, mid, hi)
    ensures Ascending(a + b, lo, hi)
  {
    forall i | 0 <= i < |a + b|
      ensures lo <= Rank((a + b)[i]) < hi
    {
      if i < |a| {
        assert (a + b)[i] == a[i];
      } else {
        assert (a + b)[i] == b[i - |a|];
      }
    }
    forall i | 0 < i < |a + b|
      ensures Rank((a + b)[i - 1]) < Rank((a + b)[i])
    {
      if i < |a| {
        assert (a + b)[i - 1] == a[i - 1] && (a + b)[i] == a[i];
      } else if i == |a| {
        assert (a + b)[i - 1] == a[i - 1] && (a + b)[i] == b[0];
      } else {
        assert (a + b)[i - 1] == b[i - 1 - |a|] && (a + b)[i] == b[i - |a|];
      }
    }
  }

  lemma AscendingWiden(events: seq<Event>, lo: nat, hi: nat, hi': nat)
    requires Ascending(events, lo, hi) && hi <= hi'
    ensures Ascending(events, lo, hi')
  {
  }

  lemma AscendingBounds(events: seq<Event>, lo: nat, hi: nat)
    requires Ascending(events, lo, hi)
    ensures forall e :: e in events ==> lo <= Rank(e) < hi
  {
  }

  /** Neighbours in order make every pair in order. */
  lemma AscendingInOrder(events: seq<Event>, lo: nat, hi: nat)
    requires Ascending(events, lo, hi)
    ensures InOrder(events)
  {
    forall i, j | 0 <= i < j < |events|
      ensures Rank(events[i]) < Rank(events[j])
    {
      AscendingPair(events, lo, hi, i, j);
    }
  }

  lemma {:induction false} AscendingPair(events: seq<Event>, lo: nat, hi: nat, i: nat, j: nat)
    requires Ascending(events, lo, hi) && i < j < |events|
    ensures Rank(events[i]) < Rank(events[j])
    decreases j - i
  {
    if i + 1 < j {
      AscendingPair(events, lo, hi, i, j - 1);
    }
  }

  /** One step in front of later steps. */
  lemma Lead(e: Event, rest: seq<Event>, hi: nat)
    requires Rank(e) < hi && Ascending(rest, Rank(e) + 1, hi)
    ensures Ascending([e] + rest, Rank(e), hi)
  {
    AscendingAppend([e], rest, Rank(e), Rank(e) + 1, hi);
  }

  lemma RenderNewOrder(t: Tools, tmp: Path, merged: Dict, oldProject: Path)
    ensures Ascending(RenderNew(t, tmp, merged, oldProject).events, 9, 11)
  {
    var e := RenderedEvent(t, tmp, NewSide, merged);
    if e.project.Success? {
      var d := Diffed(oldProject, e.project.value, Diff(t.run, oldProject, e.project.value));
      RenderedThenDiffed(e, d);
      assert RenderNew(t, tmp, merged, oldProject).events == [e, d];
    } else {
      RenderedThenDiffed(e, Diffed([], [], ""));
    }
  }

  lemma RenderedThenDiffed(e: Event, d: Event)
    requires e.Rendered? && e.side == NewSide && d.Diffed?
    ensures Ascending([e], 9, 11) && Ascending([e, d], 9, 11)
  {
  }

  lemma RenderOldOrder(t: Tools, tmp: Path, merged: Dict)
    ensures Ascending(RenderOld(t, tmp, merged).events, 8, 11)
  {
    var e := RenderedEvent(t, tmp, OldSide, merged);
    if e.project.Success? {
      RenderNewOrder(t, tmp, merged, e.project.value);
      Lead(e, RenderNew(t, tmp, merged, e.project.value).events, 11);
    }
  }

  lemma PromptOrder(t: Tools, saved: Dict, newVars: Dict, tmp: Path)
    ensures Ascending(PromptStage(t, saved, newVars, tmp).events, 7, 11)
  {
    var extra := ExtraContext(t, newVars);
    var asked := if newVars == [] then [] else [Prompted(newVars, extra)];
    if extra.Success? {
      RenderOldOrder(t, tmp, Merge(saved, extra.value));
      AscendingAppend(asked, RenderOld(t, tmp, Merge(saved, extra.value)).events, 7, 8, 11);
    }
  }

  lemma DetectOrder(t: Tools, context: Dict, tmp: Path)
    ensures Ascending(DetectStage(t, context, tmp).events, 6, 11)
  {
    var saved := SavedContext(context);
    var newVars := Detect(t, TemplateDir(tmp, NewSide), saved);
    if newVars.Success? {
      PromptOrder(t, saved.value, newVars.value, tmp);
      Lead(VariablesDetected(TemplateDir(tmp, NewSide), newVars), PromptStage(t, saved.value, newVars.value, tmp).events, 11);
    }
  }

  lemma CloneNewOrder(t: Tools, c: CruftConfig, head: string, tmp: Path)
    ensures Ascending(CloneNew(t, c, head, tmp).events, 5, 11)
  {
    var e := ClonedEvent(t, tmp, NewSide, c.template, head);
    if e.cloned.Success? {
      DetectOrder(t, c.context, tmp);
      Lead(e, DetectStage(t, c.context, tmp).events, 11);
    }
  }

  lemma InScopeOrder(t: Tools, c: CruftConfig, head: string, tmp: Path)
    ensures Ascending(InScope(t, c, head, tmp).events, 4, 11)
  {
    var e := ClonedEvent(t, tmp, OldSide, c.template, c.commit);
    if e.cloned.Success? {
      CloneNewOrder(t, c, head, tmp);
      Lead(e, CloneNew(t, c, head, tmp).events, 11);
    }
  }

  lemma ScopedOrder(t: Tools, c: CruftConfig, head: string, tmp: Path)
    ensures Ascending(Scoped(t, c, head, tmp).events, 3, 12)
  {
    var inner := InScope(t, c, head, tmp).events;
    InScopeOrder(t, c, head, tmp);
    AscendingAppend(inner, [TempDirRemoved(tmp)], 4, 11, 12);
    Lead(TempDirCreated(tmp), inner + [TempDirRemoved(tmp)], 12);
    assert [TempDirCreated(tmp)] + inner + [TempDirRemoved(tmp)] == [TempDirCreated(tmp)] + (inner + [TempDirRemoved(tmp)]);
  }

  lemma ApplyOrder(t: Tools, dir: Path, c: CruftConfig, head: string, rendering: Rendering, record: Option<Dict>)
    ensures Ascending(ApplyStage(t, dir, c, head, rendering, record).events, 12, 14)
  {
    var applied := PatchStage(t, dir, rendering.patch);
    PatchOrder(t, dir, rendering.patch);
    if applied.result.Success? {
      var data := Save(Advanced(c, head, rendering.merged));
      SavedLast(data);
      AscendingAppend(applied.events, [ConfigSaved(data)], 12, 13, 14);
      assert ApplyStage(t, dir, c, head, rendering, record).events == applied.events + [ConfigSaved(data)];
    } else {
      AscendingWiden(applied.events, 12, 13, 14);
    }
  }

  lemma SavedLast(data: Dict)
    ensures Ascending([ConfigSaved(data)], 13, 14)
  {
  }

  lemma PatchOrder(t: Tools, dir: Path, patch: string)
    ensures Ascending(PatchStage(t, dir, patch).events, 12, 13)
  {
    if patch != "" {
      var e := PatchApplied(patch, dir, ApplyPatch(t.run, patch, dir).result);
      assert PatchStage(t, dir, patch).events == [e];
      assert Rank(e) == 12;
    }
  }

  lemma ScopeStageOrder(t: Tools, dir: Path, tmp: Path, c: CruftConfig, head: string, record: Option<Dict>)
    ensures Ascending(ScopeStage(t, dir, tmp, c, head, record).events, 3, 14)
  {
    var scoped := Scoped(t, c, head, tmp);
    ScopedOrder(t, c, head, tmp);
    if scoped.result.Success? {
      ApplyOrder(t, dir, c, head, scoped.result.value, record);
      AscendingAppend(scoped.events, ApplyStage(t, dir, c, head, scoped.result.value, record).events, 3, 12, 14);
    }
  }

  lemma HeadStageOrder(t: Tools, dir: Path, tmp: Path, scratch: string, c: CruftConfig, record: Option<Dict>)
    ensures Ascending(HeadStage(t, dir, tmp, scratch, c, record).events, 2, 14)
  {
    var head := HeadCommit(t.run, c.template, c.checkout, scratch).result;
    if head.Success? {
      ScopeStageOrder(t, dir, tmp, c, head.value, record);
      HeadLeads(c, head, ScopeStage(t, dir, tmp, c, head.value, record).events);
    } else {
      HeadLeads(c, head, []);
    }
  }

  lemma HeadLeads(c: CruftConfig, head: Result<string>, rest: seq<Event>)
    requires Ascending(rest, 3, 14)
    ensures Ascending([HeadResolved(c.template, c.checkout, head)] + rest, 2, 14)
  {
    Lead(HeadResolved(c.template, c.checkout, head), rest, 14);
  }

  lemma LoadStageOrder(t: Tools, dir: Path, tmp: Path, scratch: string, record: Option<Dict>)
    ensures Ascending(LoadStage(t, dir, tmp, scratch, record).events, 1, 14)
  {
    var loaded := Load(record);
    if loaded.Success? {
      HeadStageOrder(t, dir, tmp, scratch, loaded.value, record);
      LoadLeads(loaded, HeadStage(t, dir, tmp, scratch, loaded.value, record).events);
    } else {
      LoadLeads(loaded, []);
    }
  }

  lemma LoadLeads(loaded: Result<CruftConfig>, rest: seq<Event>)
    requires Ascending(rest, 2, 14)
    ensures Ascending([ConfigLoaded(loaded)] + rest, 1, 14)
  {
    Lead(ConfigLoaded(loaded), rest, 14);
  }

  lemma StatusLeads(dir: Path, clean: Result<bool>, rest: seq<Event>)
    requires Ascending(rest, 1, 14)
    ensures Ascending([StatusChecked(dir, clean)] + rest, 0, 14)
  {
    Lead(StatusChecked(dir, clean), rest, 14);
  }

  /** A run logs its status check, then, on a clean tree, what loading the record led to. */
  lemma RunEvents(t: Tools, dir: Path, tmp: Path, scratch: string, record: Option<Dict>)
    ensures var clean := IsWorkingTreeClean(t.run, dir).result;
      Run(t, dir, tmp, scratch, record).events ==
        [StatusChecked(dir, clean)] + (if clean == Success(true) then LoadStage(t, dir, tmp, scratch, record).events else [])
  {
  }

  lemma RunOrder(t: Tools, dir: Path, tmp: Path, scratch: string, record: Option<Dict>)
    ensures Ascending(Run(t, dir, tmp, scratch, record).events, 0, 14)
  {
    var clean := IsWorkingTreeClean(t.run, dir).result;
    var rest := if clean == Success(true) then LoadStage(t, dir, tmp, scratch, record).events else [];
    RunEvents(t, dir, tmp, scratch, record);
    if clean == Success(true) {
      LoadStageOrder(t, dir, tmp, scratch, record);
    }
    StatusLeads(dir, clean, rest);
  }

  /** `run_update` takes its steps in the order of the source, each at most once: status, record,
      head, temporary directory, the two clones, detection, prompt, the two renderings, diff,
      removal of the temporary directory, patch, saved record. */
  lemma StepsInOrder(t: Tools, dir: Path, tmp: Path, scratch: string, record: Option<Dict>)
    ensures InOrder(Run(t, dir, tmp, scratch, record).events)
  {
    RunOrder(t, dir, tmp, scratch, record);
    AscendingInOrder(Run(t, dir, tmp, scratch, record).events, 0, 14);
  }
}
