/** Reconciling the variables of a newer template with the answers saved in the project. */
module Variables {
  import opened Base
  import opened Json
  import opened Paths

  /** The template's manifest of variables and their defaults. */
  const ManifestFile := "cookiecutter.json"

  /** A variable cookiecutter keeps for itself (`_extensions`, `_copy_without_render`, ...). */
  predicate IsPrivate(k: string) {
    |k| > 0 && k[0] == '_'
  }

  /** Whether a manifest variable has to be asked for: the project has no answer for it and it is not private. */
  predicate IsNew(k: string, oldContext: Dict) {
    k !in Keys(oldContext) && !IsPrivate(k)
  }

  /** The dict comprehension of `detect_new_variables`: the manifest entries, in the manifest's
      order, whose key is new. */
  function DetectNew(manifest: Dict, oldContext: Dict): (r: Dict)
    ensures forall k :: k in Keys(r) <==> k in Keys(manifest) && IsNew(k, oldContext)
    ensures forall k :: k in Keys(r) ==> Get(r, k) == Get(manifest, k)
    ensures UniqueKeys(manifest) ==> UniqueKeys(r)
    ensures IsSubsequence(r, manifest)
    decreases |manifest|
  {
    if manifest == [] then []
    else
      var rest := DetectNew(manifest[1..], oldContext);
      assert Keys(manifest) == [manifest[0].0] + Keys(manifest[1..]);
      if IsNew(manifest[0].0, oldContext) then
        var r := [manifest[0]] + rest;
        assert Keys(r) == [manifest[0].0] + Keys(rest);
        assert r[1..] == rest;
        r
      else
        assert IsSubsequence(rest, manifest[1..]);
        rest
  }

  /** Only the keys of the saved context matter, never its values. */
  lemma {:induction false} DetectNewKeysOnly(manifest: Dict, old1: Dict, old2: Dict)
    requires forall k :: k in Keys(old1) <==> k in Keys(old2)
    ensures DetectNew(manifest, old1) == DetectNew(manifest, old2)
    decreases |manifest|
  {
    if manifest != [] {
      DetectNewKeysOnly(manifest[1..], old1, old2);
    }
  }

  /** When the saved context answers every manifest variable there is nothing to ask. */
  lemma DetectNewCovered(manifest: Dict, oldContext: Dict)
    requires forall k :: k in Keys(manifest) ==> k in Keys(oldContext)
    ensures DetectNew(manifest, oldContext) == []
  {
  }

  /** `detect_new_variables`: `readJson` stands for reading and parsing a file, None when it
      cannot be read or is not JSON. A manifest that is no JSON object cannot be filtered. */
  function DetectNewVariables(readJson: Path -> Option<Value>, templateDir: Path, oldContext: Dict): (r: Result<Dict>)
    ensures readJson(templateDir + [ManifestFile]).None? <==> r == Failure(ManifestUnreadable(ManifestFile))
    ensures r.Success? <==> readJson(templateDir + [ManifestFile]).Some? && readJson(templateDir + [ManifestFile]).value.Object?
    ensures r.Success? ==> r.value == DetectNew(readJson(templateDir + [ManifestFile]).value.entries, oldContext)
  {
    match readJson(templateDir + [ManifestFile])
    case None => Failure(ManifestUnreadable(ManifestFile))
    case Some(Object(manifest)) => Success(DetectNew(manifest, oldContext))
    case Some(_) => Failure(ManifestNotAnObject)
  }

  /** `prompt_new_variables` through `cookiecutter_prompt`: cookiecutter's interactive prompt
      (`promptForConfig`, None when the user aborts) is asked about the new variables only, as the
      `cookiecutter` entry of the context it is given, and its answers are returned unchanged. */
  function PromptNewVariables(promptForConfig: Dict -> Option<Dict>, newVars: Dict): (r: Result<Dict>)
    ensures promptForConfig([("cookiecutter", Object(newVars))]).Some? <==> r.Success?
    ensures r.Success? ==> r.value == promptForConfig([("cookiecutter", Object(newVars))]).value
    ensures r.Failure? ==> r.error == PromptInterrupted
  {
    match promptForConfig([("cookiecutter", Object(newVars))])
    case None => Failure(PromptInterrupted)
    case Some(answers) => Success(answers)
  }

  /** The manifest of the private-variable scenario: one answered, one private and one new variable. */
  lemma DetectSkipsPrivateExample()
    ensures DetectNew(
      [("project_name", Str("default")), ("_extensions", Array([])), ("new_var", Str("value"))],
      [("project_name", Str("my-project"))]) == [("new_var", Str("value"))]
  {
    var manifest := [("project_name", Str("default")), ("_extensions", Array([])), ("new_var", Str("value"))];
    var saved := [("project_name", Str("my-project"))];
    assert Keys(saved) == ["project_name"];
    assert !IsNew("project_name", saved);
    assert IsPrivate("_extensions");
    assert "new_var" != "project_name";
    assert IsNew("new_var", saved);
    assert manifest[1..][1..] == [("new_var", Str("value"))];
  }
}
