/** `rebake check`: is the project still at its template's head commit? */
module Check {
  import opened Base
  import opened Json
  import opened Config
  import opened Git
  import opened Text

  /** The two answers of the drift check (`CheckResult`). */
  datatype CheckResult = UpToDate | Outdated

  /** The enum's value. */
  function Name(r: CheckResult): (name: string)
    ensures name == "up-to-date" <==> r == UpToDate
    ensures name == "outdated" <==> r == Outdated
  {
    match r
    case UpToDate => "up-to-date"
    case Outdated => "outdated"
  }

  /** `is_up_to_date`: `file` is the parsed `.cruft.json` (None when missing) and `scratch` the
      directory a clone fallback would use. The saved commit is compared with the head of the
      saved template and branch. */
  function IsUpToDate(run: Command -> Completed, scratch: string, file: Option<Dict>): (r: Ran<CheckResult>)
    ensures Load(file).Failure? ==> r == Ran(Failure(Load(file).error), [])
    ensures Load(file).Success? ==>
      var c := Load(file).value;
      var head := HeadCommit(run, c.template, c.checkout, scratch);
      && r.commands == head.commands
      && (r.result.Success? <==> head.result.Success?)
      && (r.result.Success? ==> (r.result.value == UpToDate <==> c.commit == head.result.value))
  {
    match Load(file)
    case Failure(e) => Ran(Failure(e), [])
    case Success(c) =>
      var head := HeadCommit(run, c.template, c.checkout, scratch);
      match head.result
      case Failure(e) => Ran(Failure(e), head.commands)
      case Success(h) => Ran(Success(if c.commit == h then UpToDate else Outdated), head.commands)
  }

  /** Without a `.cruft.json` the check fails before asking git anything. */
  lemma MissingRecordRunsNothing(run: Command -> Completed, scratch: string)
    ensures IsUpToDate(run, scratch, None) == Ran(Failure(FileNotFound(CruftFile)), [])
  {
  }

  /** The check writes nothing: it only queries the saved template's remote, or clones it into
      the scratch directory and reads that clone's HEAD. */
  lemma CheckIsReadOnly(run: Command -> Completed, scratch: string, file: Option<Dict>)
    ensures var r := IsUpToDate(run, scratch, file);
      forall c :: c in r.commands ==>
        && Load(file).Success?
        && var template := Load(file).value.template;
           var checkout := Load(file).value.checkout;
           || c == LsRemote(template, checkout)
           || c == Command(CloneArgs(template, checkout, scratch), None, None)
           || c == Command(["git", "rev-parse", "HEAD"], Some(scratch), None)
  {
    if Load(file).Success? {
      var c := Load(file).value;
      HeadCommitReadOnly(run, c.template, c.checkout, scratch);
    }
  }

  /** A remote whose ls-remote answer names the saved commit leaves the project up to date;
      any other hash makes it outdated. */
  lemma CheckAgainstLsRemote(run: Command -> Completed, scratch: string, file: Option<Dict>, hash: string, rest: string)
    requires Load(file).Success?
    requires hash != [] && forall i :: 0 <= i < |hash| ==> !IsSpace(hash[i])
    requires run(LsRemote(Load(file).value.template, Load(file).value.checkout)) == Completed(0, hash + "\t" + rest, "")
    ensures IsUpToDate(run, scratch, file).result == Success(if Load(file).value.commit == hash then UpToDate else Outdated)
  {
    var c := Load(file).value;
    HeadFromLsRemote(run, c.template, c.checkout, scratch, hash, rest);
  }
}
