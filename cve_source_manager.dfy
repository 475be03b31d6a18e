/**
 * The manager of cloned CVE exploit repositories: it clones or pulls each configured
 * repository into a folder named after the URL's stem, and searches the clones, repository by
 * repository, for the first readable file whose name contains a CVE id.
 *
 * Processes are a parameter `run` that gives, for each git command, what running it came to:
 * an exit code, its two output streams and what the repository directory holds afterwards,
 * or the message of an exception raised while starting it. The disk is a map from repository
 * directory to its contents.
 */
module CveSourceManager {
  import opened Common
  import opened FileTree

  // ---------------------------------------------------------------------------------------------
  // Repository directory names.

  /** The last component of a path, as `Path(p).name` gives it: empty and "." pieces do not count. */
  function LastName(pieces: seq<string>): string
  {
    if pieces == [] then []
    else
      var last := pieces[|pieces| - 1];
      if last != [] && last != "." then last else LastName(pieces[..|pieces| - 1])
  }

  /** The position of the last '.' in a name, if any. */
  function LastDot(name: string): (r: Option<nat>)
    ensures r.Some? ==> r.value < |name| && name[r.value] == '.'
  {
    if name == [] then None
    else if name[|name| - 1] == '.' then Some(|name| - 1)
    else LastDot(name[..|name| - 1])
  }

  /** No dot follows the last one. */
  lemma {:induction false} LastDotIsLast(name: string)
    ensures LastDot(name).None? <==> '.' !in name
    ensures LastDot(name).Some? ==> forall k :: LastDot(name).value < k < |name| ==> name[k] != '.'
  {
    if name != [] && name[|name| - 1] != '.' {
      var init := name[..|name| - 1];
      LastDotIsLast(init);
      assert name == init + [name[|name| - 1]];
    }
  }

  /**
   * `Path(url).stem`: the last path component without its last suffix. A leading dot does not
   * start a suffix, and neither does a dot at the very end.
   */
  function RepoStem(url: string): (r: string)
  {
    var name := LastName(Split(url, '/'));
    match LastDot(name)
    case Some(i) => if 0 < i < |name| - 1 then name[..i] else name
    case None => name
  }

  /** Splitting on a separator splits each side of one occurrence of it separately. */
  lemma {:induction false} SplitAround(a: string, sep: char, b: string)
    ensures Split(a + [sep] + b, sep) == Split(a, sep) + Split(b, sep)
    decreases |a|
  {
    if a == [] {
      assert a + [sep] + b == [sep] + b;
      assert ([sep] + b)[1..] == b;
    } else {
      assert (a + [sep] + b)[1..] == a[1..] + [sep] + b;
      SplitAround(a[1..], sep, b);
    }
  }

  /** A string without the separator is one piece. */
  lemma {:induction false} SplitNone(s: string, sep: char)
    requires sep !in s
    ensures Split(s, sep) == [s]
    decreases |s|
  {
    if s != [] {
      assert sep !in s[1..] by {
        forall k | 0 <= k < |s[1..]|
          ensures s[1..][k] != sep
        {
          assert s[1..][k] == s[k + 1];
        }
      }
      SplitNone(s[1..], sep);
      assert s == [s[0]] + s[1..];
    }
  }

  /**
   * The usual form of a repository URL: whatever comes before the last '/', the directory is
   * named by the repository name, and a `.git` ending is dropped.
   */
  lemma StemOfGitUrl(prefix: string, repo: string)
    requires repo != [] && '/' !in repo
    ensures RepoStem(prefix + "/" + repo + ".git") == repo
  {
    var name := repo + ".git";
    var url := prefix + "/" + repo + ".git";
    assert '/' !in name by {
      forall k | 0 <= k < |name|
        ensures name[k] != '/'
      {
        if k >= |repo| {
          assert name[k] == ".git"[k - |repo|];
        }
      }
    }
    assert url == prefix + ['/'] + name;
    SplitAround(prefix, '/', name);
    SplitNone(name, '/');
    var pieces := Split(url, '/');
    assert pieces == Split(prefix, '/') + [name];
    assert pieces[|pieces| - 1] == name;
    assert name != [] && name != ".";
    assert LastName(pieces) == name;
    NameOfGit(repo);
  }

  /** Text without a dot after a name does not move its last dot. */
  lemma {:induction false} LastDotAppend(s: string, t: string)
    requires '.' !in t
    ensures LastDot(s + t) == LastDot(s)
    decreases |t|
  {
    if t == [] {
      assert s + t == s;
    } else {
      var init := t[..|t| - 1];
      assert '.' !in init by {
        forall k | 0 <= k < |init|
          ensures init[k] != '.'
        {
          assert init[k] == t[k];
        }
      }
      LastDotAppend(s, init);
      assert (s + t)[..|s + t| - 1] == s + init;
      assert (s + t)[|s + t| - 1] == t[|t| - 1];
    }
  }

  /** The last dot of `repo.git` starts the `.git` suffix. */
  lemma NameOfGit(repo: string)
    ensures LastDot(repo + ".git") == Some(|repo|)
  {
    EndingDot(repo);
    LastDotAppend(repo + ".", "git");
    assert repo + "." + "git" == repo + ".git";
  }

  lemma EndingDot(repo: string)
    ensures LastDot(repo + ".") == Some(|repo|)
  {
    var dotted := repo + ".";
    assert dotted[|dotted| - 1] == '.';
  }

  /** `repo_root / stem`; an empty stem names the root itself. */
  function RepoPath(root: string, url: string): string
  {
    var stem := RepoStem(url);
    if stem == [] then root else Child(root, stem)
  }

  // ---------------------------------------------------------------------------------------------
  // Running git.

  datatype Command = Pull(cwd: string) | Clone(url: string, dest: string)

  /** One item of a command's argument list: a string, or a `Path` object. */
  datatype Arg = Word(text: string) | PathArg(path: string)

  /** The argument lists `clone_cve_repositories` builds; a clone's destination is the `Path` itself. */
  function Argv(c: Command): seq<Arg>
  {
    match c
    case Pull(_) => [Word("git"), Word("pull")]
    case Clone(url, dest) => [Word("git"), Word("clone"), Word(url), PathArg(dest)]
  }

  /** `' '.join(command)` succeeds only when every item is a string; otherwise it raises a TypeError. */
  predicate Joinable(argv: seq<Arg>)
  {
    forall k :: 0 <= k < |argv| ==> argv[k].Word?
  }

  /** What running a command came to; `after` is the repository directory afterwards, if there is one. */
  datatype Outcome =
    | Exited(code: int, stdout: string, stderr: string, after: Option<seq<Entry>>)
    | Raised(message: string)

  /** What `_run_command` gives back: an exit code and an output, or an exception that escapes it. */
  datatype Report = Reported(code: int, output: string) | Escaped

  /**
   * `_run_command` as written. A process that ran gives its exit code and its standard output
   * followed by its standard error. For one that could not be started the handler first logs the
   * arguments joined with spaces: when they are all strings it then gives -1 and the exception's
   * message, and when one is a `Path` the join raises and that TypeError escapes.
   */
  function RunCommand(argv: seq<Arg>, o: Outcome): (r: Report)
    ensures o.Exited? ==> r.Reported? && r.code == o.code && o.stdout <= r.output && r.output[|o.stdout|..] == o.stderr
    ensures o.Raised? ==> (r.Escaped? <==> !Joinable(argv))
    ensures o.Raised? && r.Reported? ==> r == Reported(-1, o.message)
  {
    match o
    case Exited(code, out, err, _) => Reported(code, out + err)
    case Raised(message) => if Joinable(argv) then Reported(-1, message) else Escaped
  }

  /** A pull that cannot be started is reported; a clone that cannot be started escapes. */
  lemma UnstartedCommands(cwd: string, url: string, dest: string, message: string)
    ensures RunCommand(Argv(Pull(cwd)), Raised(message)) == Reported(-1, message)
    ensures RunCommand(Argv(Clone(url, dest)), Raised(message)) == Escaped
  {
    assert Argv(Clone(url, dest))[3].PathArg?;
  }

  /**
   * `_run_command` as its documentation and handler intend it: it never raises, and a command
   * that could not be started gives -1 and the exception's message.
   */
  function RunCommandIntended(o: Outcome): (r: (int, string))
    ensures o.Raised? ==> r == (-1, o.message)
    ensures o.Exited? ==> r.0 == o.code && o.stdout <= r.1 && r.1[|o.stdout|..] == o.stderr
  {
    match o
    case Exited(code, out, err, _) => (code, out + err)
    case Raised(message) => (-1, message)
  }

  /** Whenever the code as written reports, it reports what was intended. */
  lemma RunCommandAgrees(argv: seq<Arg>, o: Outcome)
    ensures RunCommand(argv, o).Reported? ==>
              (RunCommand(argv, o).code, RunCommand(argv, o).output) == RunCommandIntended(o)
    ensures Joinable(argv) ==> RunCommand(argv, o).Reported?
  {
  }

  /** The directory a command works on. */
  function Target(c: Command): string
  {
    match c
    case Pull(cwd) => cwd
    case Clone(_, dest) => dest
  }

  /** A configured repository: its URL and the directory it is cloned into. */
  datatype Repo = Repo(url: string, dir: string)

  /** The configured repositories with their directories, in the configured order. */
  function Repos(root: string, urls: seq<string>): (r: seq<Repo>)
    ensures |r| == |urls| && forall i :: 0 <= i < |urls| ==> r[i] == Repo(urls[i], RepoPath(root, urls[i]))
  {
    seq(|urls|, i requires 0 <= i < |urls| => Repo(urls[i], RepoPath(root, urls[i])))
  }

  /** An existing repository directory is pulled; a missing one is cloned. */
  function CommandFor(repo: Repo, dirs: map<string, seq<Entry>>): (c: Command)
    ensures Target(c) == repo.dir
    ensures c.Pull? <==> repo.dir in dirs
    ensures c.Clone? ==> c.url == repo.url
  {
    if repo.dir in dirs then Pull(repo.dir) else Clone(repo.url, repo.dir)
  }

  /** What a command leaves on disk: only its own directory changes, and nothing when it could not be started. */
  function Apply(dirs: map<string, seq<Entry>>, path: string, o: Outcome): (r: map<string, seq<Entry>>)
    ensures forall p :: p != path ==> (p in r <==> p in dirs) && (p in r ==> r[p] == dirs[p])
    ensures o.Raised? ==> r == dirs
  {
    match o
    case Raised(_) => dirs
    case Exited(_, _, _, after) => if after.Some? then dirs[path := after.value] else dirs - {path}
  }

  /** One command run, with what `_run_command` made of it. */
  datatype Step = Step(command: Command, report: Report)

  /**
   * The command for one repository, given the disk so far, and its report: it works on the
   * repository's directory, it is a pull exactly when that directory exists and a clone of the
   * URL otherwise, and its report is what `_run_command` makes of running it.
   */
  function StepFor(repo: Repo, dirs: map<string, seq<Entry>>, run: Command -> Outcome): (s: Step)
    ensures Target(s.command) == repo.dir
    ensures s.command.Pull? <==> repo.dir in dirs
    ensures s.command.Clone? ==> s.command.url == repo.url
    ensures s.report == RunCommand(Argv(s.command), run(s.command))
  {
    var c := CommandFor(repo, dirs);
    Step(c, RunCommand(Argv(c), run(c)))
  }

  /** The same step with the intended `_run_command`. */
  function StepForIntended(repo: Repo, dirs: map<string, seq<Entry>>, run: Command -> Outcome): (s: Step)
    ensures s.command == CommandFor(repo, dirs)
    ensures s.report == Reported(RunCommandIntended(run(s.command)).0, RunCommandIntended(run(s.command)).1)
  {
    var c := CommandFor(repo, dirs);
    var reported := RunCommandIntended(run(c));
    Step(c, Reported(reported.0, reported.1))
  }

  /** `mkdir(parents=True, exist_ok=True)` on the repository folder. */
  function MakeRoot(dirs: map<string, seq<Entry>>, root: string): (r: map<string, seq<Entry>>)
    ensures root in r && forall p :: p in dirs ==> p in r && r[p] == dirs[p]
  {
    if root in dirs then dirs else dirs[root := []]
  }

  /** A run of `clone_cve_repositories`: the commands run, the disk left, and whether an exception escaped. */
  datatype CloneRun = CloneRun(steps: seq<Step>, dirs: map<string, seq<Entry>>, escaped: bool)

  /**
   * `clone_cve_repositories` as written: repository by repository, a failing command is reported
   * and the next repository is still handled, but an exception escaping `_run_command` ends the
   * loop and leaves the method. The escaping step is the last one, and it is the only one.
   */
  function CloneAll(repos: seq<Repo>, dirs: map<string, seq<Entry>>, run: Command -> Outcome): (r: CloneRun)
    ensures |r.steps| <= |repos|
    ensures !r.escaped ==> |r.steps| == |repos|
    ensures forall k :: 0 <= k < |r.steps| ==> (r.steps[k].report.Escaped? <==> r.escaped && k == |r.steps| - 1)
  {
    if repos == [] then CloneRun([], dirs, false)
    else
      var before := CloneAll(repos[..|repos| - 1], dirs, run);
      if before.escaped then before
      else
        var step := StepFor(repos[|repos| - 1], before.dirs, run);
        CloneRun(before.steps + [step], Apply(before.dirs, Target(step.command), run(step.command)), step.report.Escaped?)
  }

  /** One more repository is handled on the disk the earlier ones left, unless an exception already escaped. */
  lemma CloneAllStep(repos: seq<Repo>, i: nat, dirs: map<string, seq<Entry>>, run: Command -> Outcome)
    requires i < |repos|
    ensures var before := CloneAll(repos[..i], dirs, run);
            var step := StepFor(repos[i], before.dirs, run);
            CloneAll(repos[..i + 1], dirs, run)
            == if before.escaped then before
               else CloneRun(before.steps + [step], Apply(before.dirs, repos[i].dir, run(step.command)), step.report.Escaped?)
  {
    assert repos[..i + 1][..i] == repos[..i];
  }

  /** Once an exception escaped, the remaining repositories are not handled. */
  lemma {:induction false} EscapeStays(repos: seq<Repo>, i: nat, dirs: map<string, seq<Entry>>, run: Command -> Outcome)
    requires i <= |repos| && CloneAll(repos[..i], dirs, run).escaped
    ensures CloneAll(repos, dirs, run) == CloneAll(repos[..i], dirs, run)
    decreases |repos| - i
  {
    if i < |repos| {
      CloneAllStep(repos, i, dirs, run);
      EscapeStays(repos, i + 1, dirs, run);
    } else {
      assert repos[..i] == repos;
    }
  }

  /**
   * The k-th command is the one for the k-th repository on the disk the commands for the
   * repositories before it left, whatever those commands came to, and no exception escaped
   * before it.
   */
  lemma {:induction false} CloneStep(repos: seq<Repo>, dirs: map<string, seq<Entry>>, run: Command -> Outcome, k: nat)
    requires k < |CloneAll(repos, dirs, run).steps|
    ensures !CloneAll(repos[..k], dirs, run).escaped
    ensures CloneAll(repos, dirs, run).steps[k] == StepFor(repos[k], CloneAll(repos[..k], dirs, run).dirs, run)
  {
    var n := |repos|;
    var before := CloneAll(repos[..n - 1], dirs, run);
    if k < |before.steps| {
      assert repos[..n - 1][..k] == repos[..k];
      CloneStep(repos[..n - 1], dirs, run, k);
    } else {
      assert repos[..n - 1] == repos[..k];
    }
  }

  /**
   * A repository whose directory is missing when its turn comes, and whose clone cannot be started,
   * ends the run there: the exception escapes and no later repository is handled, whereas the
   * intended run handles every repository.
   */
  lemma CloneAbortsAtUnstartableClone(repos: seq<Repo>, dirs: map<string, seq<Entry>>, run: Command -> Outcome, k: nat)
    requires k < |repos|
    requires !CloneAll(repos[..k], dirs, run).escaped
    requires repos[k].dir !in CloneAll(repos[..k], dirs, run).dirs
    requires run(Clone(repos[k].url, repos[k].dir)).Raised?
    ensures CloneAll(repos, dirs, run).escaped
    ensures |CloneAll(repos, dirs, run).steps| == k + 1
    ensures CloneAll(repos, dirs, run).steps[k].command == Clone(repos[k].url, repos[k].dir)
    ensures |CloneAllIntended(repos, dirs, run).steps| == |repos|
  {
    var before := CloneAll(repos[..k], dirs, run);
    var step := StepFor(repos[k], before.dirs, run);
    UnstartedCommands("", repos[k].url, repos[k].dir, run(step.command).message);
    CloneAllStep(repos, k, dirs, run);
    EscapeStays(repos, k + 1, dirs, run);
  }

  /** A directory no command works on keeps what it held. */
  lemma {:induction false} CloneLeavesOthers(repos: seq<Repo>, dirs: map<string, seq<Entry>>, run: Command -> Outcome, p: string)
    requires forall k :: 0 <= k < |repos| ==> repos[k].dir != p
    ensures var after := CloneAll(repos, dirs, run).dirs;
            (p in after <==> p in dirs) && (p in after ==> after[p] == dirs[p])
  {
    if repos != [] {
      CloneLeavesOthers(repos[..|repos| - 1], dirs, run, p);
    }
  }

  /** `clone_cve_repositories` with the intended `_run_command`: every repository is handled, and nothing escapes. */
  function CloneAllIntended(repos: seq<Repo>, dirs: map<string, seq<Entry>>, run: Command -> Outcome): (r: CloneRun)
    ensures !r.escaped && |r.steps| == |repos|
    ensures forall k :: 0 <= k < |r.steps| ==> r.steps[k].report.Reported?
  {
    if repos == [] then CloneRun([], dirs, false)
    else
      var before := CloneAllIntended(repos[..|repos| - 1], dirs, run);
      var step := StepForIntended(repos[|repos| - 1], before.dirs, run);
      CloneRun(before.steps + [step], Apply(before.dirs, Target(step.command), run(step.command)), false)
  }

  /**
   * With the intended `_run_command`, the k-th command is the one for the k-th repository on the
   * disk the commands before it left, whatever those commands came to.
   */
  lemma {:induction false} CloneStepIntended(repos: seq<Repo>, dirs: map<string, seq<Entry>>, run: Command -> Outcome, k: nat)
    requires k < |repos|
    ensures CloneAllIntended(repos, dirs, run).steps[k] == StepForIntended(repos[k], CloneAllIntended(repos[..k], dirs, run).dirs, run)
  {
    var n := |repos|;
    if k < n - 1 {
      assert repos[..n - 1][..k] == repos[..k];
      CloneStepIntended(repos[..n - 1], dirs, run, k);
    } else {
      assert repos[..n - 1] == repos[..k];
    }
  }

  /** A run in which nothing escaped is exactly the intended run. */
  lemma {:induction false} NoEscapeIsIntended(repos: seq<Repo>, dirs: map<string, seq<Entry>>, run: Command -> Outcome)
    requires !CloneAll(repos, dirs, run).escaped
    ensures CloneAll(repos, dirs, run) == CloneAllIntended(repos, dirs, run)
  {
    if repos != [] {
      var init := repos[..|repos| - 1];
      NoEscapeIsIntended(init, dirs, run);
      var before := CloneAll(init, dirs, run);
      var step := StepFor(repos[|repos| - 1], before.dirs, run);
      RunCommandAgrees(Argv(step.command), run(step.command));
    }
  }

  // ---------------------------------------------------------------------------------------------
  // Searching the clones.

  /** `cve_id in file`: a case-sensitive substring test on the file's name. */
  function NameContains(cveId: string): string -> bool
  {
    name => IsSubstring(cveId, name)
  }

  /** The files of one repository's clone in walk order; a missing directory has none. */
  function RepoFiles(dir: string, dirs: map<string, seq<Entry>>): seq<Located>
  {
    if dir in dirs then Walk(dir, dirs[dir]) else []
  }

  /** The walk of each clone, in the configured order. */
  function Walks(repos: seq<Repo>, dirs: map<string, seq<Entry>>): (r: seq<seq<Located>>)
    ensures |r| == |repos| && forall i :: 0 <= i < |repos| ==> r[i] == RepoFiles(repos[i].dir, dirs)
  {
    seq(|repos|, i requires 0 <= i < |repos| => RepoFiles(repos[i].dir, dirs))
  }

  /** The walks one after the other. */
  function Flatten(groups: seq<seq<Located>>): seq<Located>
  {
    if groups == [] then [] else Flatten(groups[..|groups| - 1]) + groups[|groups| - 1]
  }

  /** The files of the first groups come first. */
  lemma {:induction false} FlattenPrefix(groups: seq<seq<Located>>, n: nat)
    requires n <= |groups|
    ensures Flatten(groups[..n]) <= Flatten(groups)
    decreases |groups| - n
  {
    if n < |groups| {
      FlattenPrefix(groups, n + 1);
      assert groups[..n + 1][..n] == groups[..n];
    } else {
      assert groups[..n] == groups;
    }
  }

  /**
   * `fetch_cve_file` as a value: the text of the first readable file, over all clones in order,
   * whose name contains the id; "" when there is none.
   */
  function FindCveFile(cveId: string, repos: seq<Repo>, dirs: map<string, seq<Entry>>): string
  {
    var files := Flatten(Walks(repos, dirs));
    match FirstAccepted(files, NameContains(cveId))
    case Some(k) => files[k].content.value
    case None => ""
  }

  /** No group has an accepted file. */
  predicate NoneAccepted(groups: seq<seq<Located>>, m: string -> bool)
  {
    forall j :: 0 <= j < |groups| ==> FirstAccepted(groups[j], m).None?
  }

  lemma {:induction false} NoneAcceptedFlat(groups: seq<seq<Located>>, m: string -> bool)
    requires NoneAccepted(groups, m)
    ensures FirstAccepted(Flatten(groups), m).None?
  {
    if groups != [] {
      var init := groups[..|groups| - 1];
      assert NoneAccepted(init, m) by {
        assert forall j :: 0 <= j < |init| ==> init[j] == groups[j];
      }
      NoneAcceptedFlat(init, m);
      FirstAcceptedConcat(Flatten(init), groups[|groups| - 1], m);
    }
  }

  /** The first accepted file overall is the first one of the first group that has one. */
  lemma {:induction false} FirstAcceptedIn(groups: seq<seq<Located>>, m: string -> bool, i: nat)
    requires i < |groups| && FirstAccepted(groups[i], m).Some? && NoneAccepted(groups[..i], m)
    ensures FirstAccepted(Flatten(groups), m).Some?
    ensures FirstAccepted(Flatten(groups), m).value == |Flatten(groups[..i])| + FirstAccepted(groups[i], m).value
  {
    var init := groups[..|groups| - 1];
    FirstAcceptedConcat(Flatten(init), groups[|groups| - 1], m);
    if i == |groups| - 1 {
      assert init == groups[..i];
      NoneAcceptedFlat(init, m);
    } else {
      assert init[..i] == groups[..i];
      FirstAcceptedIn(init, m, i);
    }
  }

  /** With no readable match in any clone, the answer is "". */
  lemma FindCveFileNone(cveId: string, repos: seq<Repo>, dirs: map<string, seq<Entry>>)
    requires forall j :: 0 <= j < |repos| ==> FirstAccepted(RepoFiles(repos[j].dir, dirs), NameContains(cveId)).None?
    ensures FindCveFile(cveId, repos, dirs) == ""
  {
    NoneAcceptedFlat(Walks(repos, dirs), NameContains(cveId));
  }

  /**
   * The answer comes from the first repository, in the configured order, whose clone has a
   * readable file whose name contains the id: it is that clone's first such file in walk order.
   */
  lemma FindCveFileFromRepository(cveId: string, repos: seq<Repo>, dirs: map<string, seq<Entry>>, i: nat)
    requires i < |repos| && FirstAccepted(RepoFiles(repos[i].dir, dirs), NameContains(cveId)).Some?
    requires forall j :: 0 <= j < i ==> FirstAccepted(RepoFiles(repos[j].dir, dirs), NameContains(cveId)).None?
    ensures var files := RepoFiles(repos[i].dir, dirs);
            FindCveFile(cveId, repos, dirs) == files[FirstAccepted(files, NameContains(cveId)).value].content.value
  {
    var m := NameContains(cveId);
    var groups := Walks(repos, dirs);
    assert NoneAccepted(groups[..i], m) by {
      forall j | 0 <= j < i ensures FirstAccepted(groups[..i][j], m).None? {
        assert groups[..i][j] == groups[j] == RepoFiles(repos[j].dir, dirs);
      }
    }
    FirstOfGroups(groups, m, i);
    assert groups[i] == RepoFiles(repos[i].dir, dirs);
  }

  /** The first accepted file of the groups together is the first one of the first group that has one. */
  lemma FirstOfGroups(groups: seq<seq<Located>>, m: string -> bool, i: nat)
    requires i < |groups| && FirstAccepted(groups[i], m).Some? && NoneAccepted(groups[..i], m)
    ensures var files := Flatten(groups);
            FirstAccepted(files, m).Some?
            && files[FirstAccepted(files, m).value] == groups[i][FirstAccepted(groups[i], m).value]
  {
    FirstAcceptedIn(groups, m, i);
    FlattenIndex(groups, i, FirstAccepted(groups[i], m).value);
  }

  /** When the first run holds an accepted file, the first of it is the first of both runs. */
  lemma FirstAcceptedInFirst(xs: seq<Located>, ys: seq<Located>, m: string -> bool, k: nat)
    requires FirstAccepted(xs, m) == Some(k)
    ensures FirstAccepted(xs + ys, m) == Some(k)
  {
    forall j | 0 <= j < k ensures !Accepts((xs + ys)[j], m) {
      assert (xs + ys)[j] == xs[j];
    }
    assert (xs + ys)[k] == xs[k];
    FirstAcceptedAtIndex(xs + ys, m, k);
  }

  /** When the first run holds no accepted file, the first of both runs is in the second. */
  lemma FirstAcceptedPastFirst(xs: seq<Located>, ys: seq<Located>, m: string -> bool)
    requires FirstAccepted(xs, m).None?
    ensures FirstAccepted(xs + ys, m) == match FirstAccepted(ys, m)
                                         case Some(k) => Some(|xs| + k)
                                         case None => None
  {
    var zs := xs + ys;
    match FirstAccepted(ys, m)
    case Some(k) =>
      forall j | 0 <= j < |xs| + k ensures !Accepts(zs[j], m) {
        if j < |xs| {
          assert zs[j] == xs[j];
        } else {
          assert zs[j] == ys[j - |xs|];
        }
      }
      assert zs[|xs| + k] == ys[k];
      FirstAcceptedAtIndex(zs, m, |xs| + k);
    case None =>
      forall j | 0 <= j < |zs| ensures !Accepts(zs[j], m) {
        if j < |xs| {
          assert zs[j] == xs[j];
        } else {
          assert zs[j] == ys[j - |xs|];
        }
      }
  }

  /** The first accepted file of two runs: the first run's, else the second's shifted past the first. */
  lemma FirstAcceptedConcat(xs: seq<Located>, ys: seq<Located>, m: string -> bool)
    ensures FirstAccepted(xs + ys, m) == match FirstAccepted(xs, m)
                                         case Some(k) => Some(k)
                                         case None => match FirstAccepted(ys, m)
                                                      case Some(k) => Some(|xs| + k)
                                                      case None => None
  {
    match FirstAccepted(xs, m)
    case Some(k) => FirstAcceptedInFirst(xs, ys, m, k);
    case None => FirstAcceptedPastFirst(xs, ys, m);
  }

  // ---------------------------------------------------------------------------------------------
  // The manager.

  /** `CVESourceManager`. */
  class CveSourceManager {
    const repositories: seq<string>
    const repoFolder: string
    /** The repository directories on disk and what they hold. */
    var dirs: map<string, seq<Entry>>

    constructor (repositories: seq<string>, repoFolder: string, dirs: map<string, seq<Entry>>)
      ensures this.repositories == repositories && this.repoFolder == repoFolder && this.dirs == dirs
    {
      this.repositories := repositories;
      this.repoFolder := repoFolder;
      this.dirs := dirs;
    }

    /** `repo_root / Path(repo_url).stem`. */
    method RepoDir(url: string) returns (dir: string)
      ensures dir == RepoPath(repoFolder, url)
    {
      var stem := RepoStem(url);
      dir := if stem == [] then repoFolder else Child(repoFolder, stem);
    }

    /** One repository: pull it when its directory exists, clone it otherwise. */
    method CloneOne(repo: Repo, run: Command -> Outcome) returns (step: Step)
      modifies this`dirs
      ensures step == StepFor(repo, old(dirs), run)
      ensures dirs == Apply(old(dirs), repo.dir, run(step.command))
    {
      var command: Command;
      if repo.dir in dirs {
        command := Pull(repo.dir);
      } else {
        command := Clone(repo.url, repo.dir);
      }
      var outcome := run(command);
      var report := RunCommand(Argv(command), outcome);
      step := Step(command, report);
      dirs := Apply(dirs, repo.dir, outcome);
    }

    /**
     * `clone_cve_repositories`: the folder is created, then each repository is pulled or cloned,
     * until an exception escapes `_run_command`; `escaped` says whether one did, and so left the method.
     */
    method CloneRepositories(run: Command -> Outcome) returns (trace: seq<Step>, escaped: bool)
      modifies this`dirs
      ensures CloneRun(trace, dirs, escaped) == CloneAll(Repos(repoFolder, repositories), MakeRoot(old(dirs), repoFolder), run)
    {
      if repoFolder !in dirs {
        dirs := dirs[repoFolder := []];
      }
      ghost var start := dirs;
      ghost var repos := Repos(repoFolder, repositories);
      trace, escaped := [], false;
      var i := 0;
      while i < |repositories| && !escaped
        invariant 0 <= i <= |repositories|
        invariant CloneRun(trace, dirs, escaped) == CloneAll(repos[..i], start, run)
      {
        CloneAllStep(repos, i, start, run);
        var url := repositories[i];
        var path := RepoDir(url);
        var step := CloneOne(Repo(url, path), run);
        trace := trace + [step];
        escaped := step.report.Escaped?;
        i := i + 1;
      }
      if escaped {
        EscapeStays(repos, i, start, run);
      } else {
        assert repos[..i] == repos;
      }
    }

    /** `fetch_cve_file`: repositories in order, each clone's files in walk order, first readable match wins. */
    method FetchCveFile(cveId: string) returns (content: string)
      ensures content == FindCveFile(cveId, Repos(repoFolder, repositories), dirs)
    {
      ghost var repos := Repos(repoFolder, repositories);
      var i := 0;
      while i < |repositories|
        invariant 0 <= i <= |repositories|
        invariant forall j :: 0 <= j < i ==> FirstAccepted(RepoFiles(repos[j].dir, dirs), NameContains(cveId)).None?
      {
        var path := RepoDir(repositories[i]);
        var found := FirstReadableMatch(RepoFiles(path, dirs), cveId);
        if found.Some? {
          FindCveFileFromRepository(cveId, repos, dirs, i);
          return found.value;
        }
        i := i + 1;
      }
      FindCveFileNone(cveId, repos, dirs);
      return "";
    }
  }

  /** `for file in files: if cve_id in file: try: return f.read()`: the first readable file whose name contains the id. */
  method FirstReadableMatch(files: seq<Located>, cveId: string) returns (r: Option<string>)
    ensures r == match FirstAccepted(files, NameContains(cveId))
                 case Some(k) => Some(files[k].content.value)
                 case None => None
  {
    var j := 0;
    while j < |files|
      invariant 0 <= j <= |files|
      invariant forall k :: 0 <= k < j ==> !Accepts(files[k], NameContains(cveId))
    {
      var file := files[j];
      if IsSubstring(cveId, file.name) {
        match file.content {
          case Some(text) =>
            FirstAcceptedAt(files, NameContains(cveId), j);
            return Some(text);
          case None =>
        }
      }
      j := j + 1;
    }
    return None;
  }

  /** An accepted file after only rejected ones is the first accepted. */
  lemma FirstAcceptedAt(files: seq<Located>, m: string -> bool, j: nat)
    requires j < |files| && Accepts(files[j], m)
    requires forall k :: 0 <= k < j ==> !Accepts(files[k], m)
    ensures FirstAccepted(files, m) == Some(j)
  {
  }

  /** Where the j-th file of the i-th group sits once the groups are flattened. */
  lemma FlattenIndex(groups: seq<seq<Located>>, i: nat, j: nat)
    requires i < |groups| && j < |groups[i]|
    ensures |Flatten(groups[..i])| + j < |Flatten(groups)|
    ensures Flatten(groups)[|Flatten(groups[..i])| + j] == groups[i][j]
  {
    var before := Flatten(groups[..i]);
    FlattenPrefix(groups, i + 1);
    assert groups[..i + 1][..i] == groups[..i];
    assert Flatten(groups[..i + 1]) == before + groups[i];
    assert Flatten(groups)[|before| + j] == (before + groups[i])[|before| + j];
  }
}
