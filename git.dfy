/** The git gateway: which git commands are run, in which directory and with which input, and
    how their output is read. git itself is an oracle `run` from a command to its exit code and
    captured output; every gateway function returns its result together with the commands it
    issued, in order. */
module Git {
  import opened Base
  import opened Text
  import opened Paths

  /** One `subprocess.run`: the argument list, the working directory and the text fed to stdin. */
  datatype Command = Command(args: seq<string>, cwd: Option<string>, input: Option<string>)

  /** What `subprocess.run(..., capture_output=True)` hands back. */
  datatype Completed = Completed(returncode: int, stdout: string, stderr: string)

  /** A gateway call: its result or the exception it raised, and the commands it ran. */
  datatype Ran<+T> = Ran(result: Result<T>, commands: seq<Command>)

  /** `subprocess.run(..., check=True)`: a non-zero exit raises `CalledProcessError`. */
  function Checked(run: Command -> Completed, cmd: Command): (r: Result<Completed>)
    ensures r.Success? <==> run(cmd).returncode == 0
    ensures r.Success? ==> r.value == run(cmd)
    ensures r.Failure? ==> r.error == CalledProcessError(cmd.args, run(cmd).returncode)
  {
    var done := run(cmd);
    if done.returncode == 0 then Success(done) else Failure(CalledProcessError(cmd.args, done.returncode))
  }

  /** Python truthiness of the optional branch name: neither None nor the empty string. */
  predicate Truthy(checkout: Option<string>) {
    checkout.Some? && checkout.value != ""
  }

  /** `checkout or "HEAD"`. */
  function Ref(checkout: Option<string>): (ref: string)
    ensures Truthy(checkout) ==> ref == checkout.value
    ensures !Truthy(checkout) ==> ref == "HEAD"
  {
    if Truthy(checkout) then checkout.value else "HEAD"
  }

  function LsRemote(url: string, checkout: Option<string>): Command {
    Command(["git", "ls-remote", url, Ref(checkout)], None, None)
  }

  /** `stdout.strip().splitlines()[0].split("\t")[0]`, None when there are no lines. */
  function ParseLsRemote(stdout: string): (r: Option<string>)
    ensures r.None? <==> IsBlank(stdout)
    ensures r.Some? ==>
      var t := Strip(stdout);
      && |r.value| <= |t| && r.value == t[..|r.value|]
      && (forall i :: 0 <= i < |r.value| ==> !IsLineBreak(r.value[i]) && !IsTab(r.value[i]))
      && (|r.value| < |t| ==> IsLineBreak(t[|r.value|]) || IsTab(t[|r.value|]))
  {
    var t := Strip(stdout);
    if t == [] then None
    else
      var line := UpTo(t, IsLineBreak);
      var field := UpTo(line, IsTab);
      assert |field| < |line| ==> line[|field|] == t[|field|];
      Some(field)
  }

  /** An ls-remote line `<hash>\t<ref>...` gives the hash, whatever follows the tab. */
  lemma LsRemoteFirstField(hash: string, rest: string)
    requires hash != [] && forall i :: 0 <= i < |hash| ==> !IsSpace(hash[i])
    ensures ParseLsRemote(hash + "\t" + rest) == Some(hash)
  {
    var x := "\t" + rest;
    assert hash + "\t" + rest == hash + x;
    StripKeepsSolidHead(hash, x);
    var t := Strip(hash + x);
    var tail := x[..|t| - |hash|];
    assert t == hash + tail;
    forall i | 0 <= i < |hash|
      ensures !IsLineBreak(hash[i]) && !IsTab(hash[i])
    {
      LineBreakIsSpace(hash[i]);
    }
    UpToAppend(hash, tail, IsLineBreak);
    var y := UpTo(tail, IsLineBreak);
    assert y == [] || y[0] == '\t';
    UpToAppend(hash, y, IsTab);
    assert UpTo(y, IsTab) == [];
    assert hash + [] == hash;
  }

  /** The arguments of the shallow clone behind `_get_commit_via_clone`. */
  function CloneArgs(url: string, checkout: Option<string>, scratch: string): (args: seq<string>)
    ensures |args| >= 5 && args[..3] == ["git", "clone", "--depth=1"] && args[|args| - 2..] == [url, scratch]
    ensures Truthy(checkout) ==> |args| == 7 && args[3..5] == ["--branch", checkout.value]
    ensures !Truthy(checkout) ==> |args| == 5
  {
    ["git", "clone", "--depth=1"] + (if Truthy(checkout) then ["--branch", checkout.value] else []) + [url, scratch]
  }

  /** `_get_commit_via_clone`: clone into the scratch directory `scratch` and ask for its HEAD. */
  function CommitViaClone(run: Command -> Completed, url: string, checkout: Option<string>, scratch: string): (r: Ran<string>)
    ensures 1 <= |r.commands| <= 2
    ensures r.commands[0] == Command(CloneArgs(url, checkout, scratch), None, None)
    ensures |r.commands| == 2 <==> run(r.commands[0]).returncode == 0
    ensures |r.commands| == 2 ==> r.commands[1] == Command(["git", "rev-parse", "HEAD"], Some(scratch), None)
    ensures r.result.Success? <==> forall i :: 0 <= i < |r.commands| ==> run(r.commands[i]).returncode == 0
    ensures r.result.Success? ==> |r.commands| == 2 && r.result.value == Strip(run(r.commands[1]).stdout)
  {
    var clone := Command(CloneArgs(url, checkout, scratch), None, None);
    match Checked(run, clone)
    case Failure(e) => Ran(Failure(e), [clone])
    case Success(_) =>
      var revParse := Command(["git", "rev-parse", "HEAD"], Some(scratch), None);
      match Checked(run, revParse)
      case Failure(e) => Ran(Failure(e), [clone, revParse])
      case Success(done) => Ran(Success(Strip(done.stdout)), [clone, revParse])
  }

  /** `get_template_head_commit`: ls-remote first; the clone fallback when it fails or prints
      no lines. */
  function HeadCommit(run: Command -> Completed, url: string, checkout: Option<string>, scratch: string): (r: Ran<string>)
    ensures |r.commands| >= 1 && r.commands[0] == LsRemote(url, checkout)
    ensures |r.commands| == 1 <==> run(LsRemote(url, checkout)).returncode == 0 && !IsBlank(run(LsRemote(url, checkout)).stdout)
    ensures |r.commands| == 1 ==> r.result == Success(ParseLsRemote(run(LsRemote(url, checkout)).stdout).value)
    ensures |r.commands| > 1 ==> r == Ran(CommitViaClone(run, url, checkout, scratch).result, [LsRemote(url, checkout)] + CommitViaClone(run, url, checkout, scratch).commands)
  {
    var ls := LsRemote(url, checkout);
    var done := run(ls);
    if done.returncode == 0 && ParseLsRemote(done.stdout).Some? then
      Ran(Success(ParseLsRemote(done.stdout).value), [ls])
    else
      var fallback := CommitViaClone(run, url, checkout, scratch);
      Ran(fallback.result, [ls] + fallback.commands)
  }

  /** The only commands a head lookup runs are the remote query, the shallow clone into the
      scratch directory and `rev-parse` there: it never touches a project. */
  lemma HeadCommitReadOnly(run: Command -> Completed, url: string, checkout: Option<string>, scratch: string)
    ensures var r := HeadCommit(run, url, checkout, scratch);
      forall c :: c in r.commands ==>
        || c == LsRemote(url, checkout)
        || c == Command(CloneArgs(url, checkout, scratch), None, None)
        || c == Command(["git", "rev-parse", "HEAD"], Some(scratch), None)
  {
    var r := HeadCommit(run, url, checkout, scratch);
    if |r.commands| > 1 {
      var f := CommitViaClone(run, url, checkout, scratch);
      assert r.commands == [LsRemote(url, checkout)] + f.commands;
    }
  }

  /** A remote that answers with an ls-remote line yields that line's hash, with no clone. */
  lemma HeadFromLsRemote(run: Command -> Completed, url: string, checkout: Option<string>, scratch: string, hash: string, rest: string)
    requires hash != [] && forall i :: 0 <= i < |hash| ==> !IsSpace(hash[i])
    requires run(LsRemote(url, checkout)) == Completed(0, hash + "\t" + rest, "")
    ensures HeadCommit(run, url, checkout, scratch) == Ran(Success(hash), [LsRemote(url, checkout)])
  {
    LsRemoteFirstField(hash, rest);
  }

  /** `clone_at_commit`: a full clone into `dest`, then a checkout of `commit` inside it. */
  function CloneAtCommit(run: Command -> Completed, url: string, commit: string, dest: Path): (r: Ran<()>)
    ensures 1 <= |r.commands| <= 2
    ensures r.commands[0] == Command(["git", "clone", url, PathStr(dest)], None, None)
    ensures |r.commands| == 2 <==> run(r.commands[0]).returncode == 0
    ensures |r.commands| == 2 ==> r.commands[1] == Command(["git", "checkout", commit], Some(PathStr(dest)), None)
    ensures r.result.Success? <==> forall i :: 0 <= i < |r.commands| ==> run(r.commands[i]).returncode == 0
    ensures r.result.Failure? ==> r.result.error.CalledProcessError?
  {
    var clone := Command(["git", "clone", url, PathStr(dest)], None, None);
    match Checked(run, clone)
    case Failure(e) => Ran(Failure(e), [clone])
    case Success(_) =>
      var checkoutCommit := Command(["git", "checkout", commit], Some(PathStr(dest)), None);
      match Checked(run, checkoutCommit)
      case Failure(e) => Ran(Failure(e), [clone, checkoutCommit])
      case Success(_) => Ran(Success(()), [clone, checkoutCommit])
  }

  function Status(dir: Path): Command {
    Command(["git", "status", "--porcelain"], Some(PathStr(dir)), None)
  }

  /** `is_working_tree_clean`: clean iff `git status --porcelain` prints only whitespace. */
  function IsWorkingTreeClean(run: Command -> Completed, dir: Path): (r: Ran<bool>)
    ensures r.commands == [Status(dir)]
    ensures r.result.Success? <==> run(Status(dir)).returncode == 0
    ensures r.result.Success? ==> (r.result.value <==> IsBlank(run(Status(dir)).stdout))
  {
    match Checked(run, Status(dir))
    case Failure(e) => Ran(Failure(e), [Status(dir)])
    case Success(done) => Ran(Success(Strip(done.stdout) == ""), [Status(dir)])
  }

  function ShowToplevel(dir: Path): Command {
    Command(["git", "rev-parse", "--show-toplevel"], Some(PathStr(dir)), None)
  }

  /** `_git_root`: the worktree root git reports for `dir`, read back as a path. */
  function GitRoot(run: Command -> Completed, dir: Path): (r: Ran<Path>)
    ensures r.commands == [ShowToplevel(dir)]
    ensures r.result.Success? <==> run(ShowToplevel(dir)).returncode == 0
    ensures r.result.Success? ==> WellFormed(r.result.value) && r.result.value == ParsePath(Strip(run(ShowToplevel(dir)).stdout))
  {
    match Checked(run, ShowToplevel(dir))
    case Failure(e) => Ran(Failure(e), [ShowToplevel(dir)])
    case Success(done) => Ran(Success(ParsePath(Strip(done.stdout))), [ShowToplevel(dir)])
  }

  /** One `git apply` of the patch from the worktree root, relative to `rel` inside it;
      with `reject`, hunks that do not apply are left in `.rej` files. */
  function Apply(patch: string, root: Path, rel: Path, reject: bool): (cmd: Command)
    ensures cmd.input == Some(patch) && cmd.cwd == Some(PathStr(root))
    ensures |cmd.args| >= 5 && cmd.args[..4] == ["git", "apply", "--ignore-whitespace", "--directory=" + PathStr(rel)]
    ensures "--reject" in cmd.args <==> reject
  {
    var base := ["git", "apply", "--ignore-whitespace", "--directory=" + PathStr(rel)];
    assert "--reject" !in base;
    Command(base + (if reject then ["--reject", "-"] else ["-"]), Some(PathStr(root)), Some(patch))
  }

  /** The two attempts of `apply_patch` once the worktree root and the project's place in it are
      known: `(True, "")` when the clean apply succeeds; otherwise a second apply with `--reject`
      and `(False, its stderr)`, whatever that second attempt's exit code. */
  function ApplyAttempts(run: Command -> Completed, patch: string, root: Path, rel: Path): (r: Ran<(bool, string)>)
    ensures r.result.Success?
    ensures r.result.value.0 <==> run(Apply(patch, root, rel, false)).returncode == 0
    ensures r.result.value.0 ==> r.result.value.1 == "" && r.commands == [Apply(patch, root, rel, false)]
    ensures !r.result.value.0 ==>
      && r.result.value.1 == run(Apply(patch, root, rel, true)).stderr
      && r.commands == [Apply(patch, root, rel, false), Apply(patch, root, rel, true)]
  {
    var first := Apply(patch, root, rel, false);
    if run(first).returncode == 0 then
      Ran(Success((true, "")), [first])
    else
      var second := Apply(patch, root, rel, true);
      Ran(Success((false, run(second).stderr)), [first, second])
  }

  /** `apply_patch`: from the worktree root containing `dir`, with `--directory` set to where
      `dir` lies inside it. */
  function ApplyPatch(run: Command -> Completed, patch: string, dir: Path): (r: Ran<(bool, string)>)
    ensures |r.commands| >= 1 && r.commands[0] == ShowToplevel(dir)
    ensures GitRoot(run, dir).result.Failure? ==> r == Ran(Failure(GitRoot(run, dir).result.error), [ShowToplevel(dir)])
    ensures GitRoot(run, dir).result.Success? ==>
      var root := GitRoot(run, dir).result.value;
      match RelativeTo(dir, root)
      case None => r == Ran(Failure(NotRelative), [ShowToplevel(dir)])
      case Some(rel) => r == Ran(ApplyAttempts(run, patch, root, rel).result, [ShowToplevel(dir)] + ApplyAttempts(run, patch, root, rel).commands)
  {
    var root := GitRoot(run, dir);
    match root.result
    case Failure(e) => Ran(Failure(e), root.commands)
    case Success(rootDir) =>
      match RelativeTo(dir, rootDir)
      case None => Ran(Failure(NotRelative), root.commands)
      case Some(rel) =>
        var attempts := ApplyAttempts(run, patch, rootDir, rel);
        Ran(attempts.result, root.commands + attempts.commands)
  }

  /** Every apply attempt is fed the same patch, at most two are made, and `--reject` is only
      ever the second. */
  lemma AttemptsShape(run: Command -> Completed, patch: string, root: Path, rel: Path)
    ensures var cmds := ApplyAttempts(run, patch, root, rel).commands;
      && 1 <= |cmds| <= 2
      && (forall c :: c in cmds ==> c.input == Some(patch) && |c.args| >= 2 && c.args[0] == "git" && c.args[1] == "apply")
      && "--reject" !in cmds[0].args
      && (|cmds| == 2 ==> "--reject" in cmds[1].args)
  {
  }

  /** Over the whole of `apply_patch`: after the root lookup come at most two apply attempts,
      each fed the patch, and only the second with `--reject`. */
  lemma ApplyPatchAttempts(run: Command -> Completed, patch: string, dir: Path)
    ensures var r := ApplyPatch(run, patch, dir);
      && |r.commands| <= 3
      && (forall c :: c in r.commands[1..] ==> c.input == Some(patch) && |c.args| >= 2 && c.args[0] == "git" && c.args[1] == "apply")
      && (|r.commands| >= 2 ==> "--reject" !in r.commands[1].args)
      && (|r.commands| == 3 ==> "--reject" in r.commands[2].args)
  {
    var root := GitRoot(run, dir);
    if root.result.Success? && RelativeTo(dir, root.result.value).Some? {
      var rel := RelativeTo(dir, root.result.value).value;
      AttemptsShape(run, patch, root.result.value, rel);
      var cmds := ApplyAttempts(run, patch, root.result.value, rel).commands;
      var r := ApplyPatch(run, patch, dir);
      assert r.commands == [ShowToplevel(dir)] + cmds;
      assert r.commands[1..] == cmds;
    }
  }

  /** The longest run of equal leading parts of two paths. */
  function CommonPrefix(p1: Path, p2: Path): (r: Path)
    ensures |r| <= |p1| && |r| <= |p2| && r == p1[..|r|] && r == p2[..|r|]
    ensures |r| == |p1| || |r| == |p2| || p1[|r|] != p2[|r|]
  {
    if p1 == [] || p2 == [] || p1[0] != p2[0] then []
    else [p1[0]] + CommonPrefix(p1[1..], p2[1..])
  }

  /** Any shared prefix is a prefix of the longest one. */
  lemma {:induction false} CommonPrefixLongest(p1: Path, p2: Path, q: Path)
    requires |q| <= |p1| && |q| <= |p2| && q == p1[..|q|] && q == p2[..|q|]
    ensures |q| <= |CommonPrefix(p1, p2)| && q == CommonPrefix(p1, p2)[..|q|]
  {
    if q != [] {
      assert p1[0] == q[0] == p2[0];
      CommonPrefixLongest(p1[1..], p2[1..], q[1..]);
    }
  }

  /** A shared prefix that cannot be extended is the longest one. */
  lemma CommonPrefixUnique(p1: Path, p2: Path, q: Path)
    requires |q| <= |p1| && |q| <= |p2| && q == p1[..|q|] && q == p2[..|q|]
    requires |q| == |p1| || |q| == |p2| || p1[|q|] != p2[|q|]
    ensures q == CommonPrefix(p1, p2)
  {
    var c := CommonPrefix(p1, p2);
    CommonPrefixLongest(p1, p2, q);
  }

  /** `_common_ancestor`: walks the two part sequences side by side while they agree; a shared
      prefix of at most one part (only the root "/") counts as none. */
  method CommonAncestor(path1: Path, path2: Path) returns (r: Option<Path>)
    ensures r.None? <==> |CommonPrefix(path1, path2)| <= 1
    ensures r.Some? ==> r.value == CommonPrefix(path1, path2)
  {
    var commonParts: Path := [];
    var i := 0;
    while i < |path1| && i < |path2|
      invariant i <= |path1| && i <= |path2|
      invariant commonParts == path1[..i] && commonParts == path2[..i]
    {
      if path1[i] == path2[i] {
        commonParts := commonParts + [path1[i]];
        i := i + 1;
      } else {
        break;
      }
    }
    CommonPrefixUnique(path1, path2, commonParts);
    if |commonParts| <= 1 {
      return None;
    }
    return Some(commonParts);
  }

  /** What `generate_diff` runs and which directory prefixes it then deletes from the output. */
  datatype DiffPlan = DiffPlan(cmd: Command, oldPrefix: string, newPrefix: string)

  /** From the common ancestor, when there is one, with the paths below it; otherwise from the
      current directory with the full paths. Each prefix is the path as passed to git, plus "/". */
  function PlanDiff(oldDir: Path, newDir: Path): (plan: DiffPlan)
    ensures plan.cmd.input == None
    ensures |plan.cmd.args| == 6 && plan.cmd.args[..4] == ["git", "diff", "--no-index", "--binary"]
    ensures plan.oldPrefix == plan.cmd.args[4] + "/" && plan.newPrefix == plan.cmd.args[5] + "/"
    ensures var common := CommonPrefix(oldDir, newDir);
      if |common| > 1 then
        && plan.cmd.cwd == Some(PathStr(common))
        && plan.cmd.args[4..] == [PathStr(oldDir[|common|..]), PathStr(newDir[|common|..])]
      else
        plan.cmd.cwd == None && plan.cmd.args[4..] == [PathStr(oldDir), PathStr(newDir)]
  {
    var common := CommonPrefix(oldDir, newDir);
    if |common| > 1 then
      var oldRel := RelativeTo(oldDir, common).value;
      var newRel := RelativeTo(newDir, common).value;
      var args := ["git", "diff", "--no-index", "--binary", PathStr(oldRel), PathStr(newRel)];
      assert args[4..] == [PathStr(oldRel), PathStr(newRel)];
      DiffPlan(Command(args, Some(PathStr(common)), None), PathStr(oldRel) + "/", PathStr(newRel) + "/")
    else
      var args := ["git", "diff", "--no-index", "--binary", PathStr(oldDir), PathStr(newDir)];
      DiffPlan(Command(args, None, None), PathStr(oldDir) + "/", PathStr(newDir) + "/")
  }

  /** `raw.replace(old_prefix, "").replace(new_prefix, "")`. */
  function StripPrefixes(raw: string, oldPrefix: string, newPrefix: string): string
    requires oldPrefix != [] && newPrefix != []
  {
    ReplaceAll(ReplaceAll(raw, oldPrefix, ""), newPrefix, "")
  }

  /** No differences, no patch. */
  lemma StripPrefixesEmpty(oldPrefix: string, newPrefix: string)
    requires oldPrefix != [] && newPrefix != []
    ensures StripPrefixes("", oldPrefix, newPrefix) == ""
  {
  }

  /** Output that mentions neither directory passes through unchanged. */
  lemma StripPrefixesAbsent(raw: string, oldPrefix: string, newPrefix: string)
    requires oldPrefix != [] && newPrefix != []
    requires !Contains(raw, oldPrefix) && !Contains(raw, newPrefix)
    ensures StripPrefixes(raw, oldPrefix, newPrefix) == raw
  {
    ReplaceAllAbsent(raw, oldPrefix, "");
    ReplaceAllAbsent(raw, newPrefix, "");
  }

  /** Stripping never makes the patch longer than git's output. */
  lemma StripPrefixesShortens(raw: string, oldPrefix: string, newPrefix: string)
    requires oldPrefix != [] && newPrefix != []
    ensures |StripPrefixes(raw, oldPrefix, newPrefix)| <= |raw|
  {
    ReplaceAllDeletes(raw, oldPrefix);
    ReplaceAllDeletes(ReplaceAll(raw, oldPrefix, ""), newPrefix);
  }

  /** The patch `generate_diff` returns: git's output (whatever the exit code, since 1 only means
      the trees differ) with both directory prefixes deleted, the old one first. */
  function Diff(run: Command -> Completed, oldDir: Path, newDir: Path): string {
    var plan := PlanDiff(oldDir, newDir);
    StripPrefixes(run(plan.cmd).stdout, plan.oldPrefix, plan.newPrefix)
  }

  /** `generate_diff` on two resolved directories. */
  method GenerateDiff(run: Command -> Completed, oldDir: Path, newDir: Path) returns (patch: string, cmd: Command)
    ensures cmd == PlanDiff(oldDir, newDir).cmd
    ensures patch == Diff(run, oldDir, newDir)
  {
    var common := CommonAncestor(oldDir, newDir);
    var raw: string;
    var oldPrefix: string;
    var newPrefix: string;
    if common.Some? {
      var oldRel := PathStr(RelativeTo(oldDir, common.value).value);
      var newRel := PathStr(RelativeTo(newDir, common.value).value);
      cmd := Command(["git", "diff", "--no-index", "--binary", oldRel, newRel], Some(PathStr(common.value)), None);
      raw := run(cmd).stdout;
      oldPrefix := oldRel + "/";
      newPrefix := newRel + "/";
    } else {
      cmd := Command(["git", "diff", "--no-index", "--binary", PathStr(oldDir), PathStr(newDir)], None, None);
      raw := run(cmd).stdout;
      oldPrefix := PathStr(oldDir) + "/";
      newPrefix := PathStr(newDir) + "/";
    }
    patch := ReplaceAll(ReplaceAll(raw, oldPrefix, ""), newPrefix, "");
  }
}
