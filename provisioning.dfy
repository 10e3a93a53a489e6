/**
 * The `provision` task: on every host of the destination role, create the archive, web
 * root and repository folders, initialise a bare repository, register it as a git remote
 * of the local checkout and push to it, then clone it into the web root.
 *
 * The blocks below are shared with the older `_provision` task of the single-file
 * fabfile, which differs only in how its `except` clauses resume, where its `local()`
 * calls run and how it names the remote.
 */
module Provisioning {
  import opened Base
  import opened Environments
  import opened Execution

  /** The folders the loop creates, in order; `repo` is the one entry an environment may lack. */
  datatype Folder = Archive | Root | Repo
  {
    function Name(): string
    {
      match this
      case Archive => "archive"
      case Root => "root"
      case Repo => "repo"
    }
  }

  const Folders: seq<Folder> := [Archive, Root, Repo]

  function FolderMessage(dir: string): string
  {
    "Could not make the `" + dir + "` folder: "
  }

  const LocalGitMessage := "Problems configuring local git remote and/or pushing it to the destination."
  const WebRootMessage := "Problems configuring destination web root."

  /** `env[dest][dir]`, absent when the environment's dictionary has no such entry. */
  function FolderPath(e: Environment, f: Folder): (p: Option<string>)
    ensures p.Some? <==> f.Name() in EnvFields(e)
    ensures p.Some? ==> p.value == EnvFields(e)[f.Name()]
  {
    match f
    case Archive => Some(e.archive)
    case Root => Some(e.root)
    case Repo => e.repo
  }

  /**
   * What an `except` clause does with an exception raised by the task's own code rather than
   * by a command; a missing dictionary entry raises a KeyError whose message is the key.
   */
  function Caught(h: Handler, cause: string): seq<Action>
  {
    var m := h.message + (if h.withCause then cause else "");
    match h.resume
    case Continue => [Note(m)]
    case ExitTask => [Note(m), Stop(Exited)]
    case RaiseException => [Stop(Raised("Exception", m))]
  }

  /**
   * One turn of the folder loop: `mkdir -p` inside a `try` whose `except Exception` resumes as
   * `resume` says.  A failing `run` is Fabric's abort, a `SystemExit` that `except Exception`
   * lets through, so the clause only catches the KeyError of a missing entry.
   */
  function MkdirActions(e: Environment, host: string, f: Folder, resume: Resume): seq<Action>
  {
    var h := Handler(FolderMessage(f.Name()), true, resume);
    match FolderPath(e, f)
    case Some(p) => [Do(Exec(Remote(host), None, "mkdir -p " + p), Abort)]
    case None => Caught(h, f.Name())
  }

  /** The turns of the folder loop. */
  function FolderJobs(e: Environment, host: string, resume: Resume): (jobs: seq<seq<Action>>)
    ensures |jobs| == |Folders|
    ensures forall i :: 0 <= i < |Folders| ==> jobs[i] == MkdirActions(e, host, Folders[i], resume)
  {
    seq(|Folders|, i requires 0 <= i < |Folders| => MkdirActions(e, host, Folders[i], resume))
  }

  function FoldersPlan(e: Environment, host: string, resume: Resume): seq<Action>
  {
    Flatten(FolderJobs(e, host, resume))
  }

  /** The folder loop, turn by turn. */
  lemma FoldersPlanTurns(e: Environment, host: string, resume: Resume)
    ensures FoldersPlan(e, host, resume)
         == MkdirActions(e, host, Archive, resume) + MkdirActions(e, host, Root, resume) + MkdirActions(e, host, Repo, resume)
  {
    var a, b, c := MkdirActions(e, host, Archive, resume), MkdirActions(e, host, Root, resume), MkdirActions(e, host, Repo, resume);
    assert FolderJobs(e, host, resume) == [a, b, c];
    FlattenThree(a, b, c);
  }

  /** The folder loop. */
  method MakeFolders(ex: Executor, e: Environment, host: string, resume: Resume) returns (err: Option<Error>)
    modifies ex
    ensures ex.Extended(Perform(FoldersPlan(e, host, resume), ex.failures))
    ensures err == Perform(FoldersPlan(e, host, resume), ex.failures).error
  {
    err := ExecuteAll(ex, FolderJobs(e, host, resume));
  }

  /** The three `mkdir -p` steps of an environment that has every folder. */
  function MkdirSteps(e: Environment, host: string): seq<Step>
    requires e.repo.Some?
  {
    [Exec(Remote(host), None, "mkdir -p " + e.archive), Exec(Remote(host), None, "mkdir -p " + e.root),
     Exec(Remote(host), None, "mkdir -p " + e.repo.value)]
  }

  /** The folder loop of an environment with every folder: one mkdir per folder, each aborting on failure. */
  lemma FoldersPlanSteps(e: Environment, host: string, resume: Resume)
    requires e.repo.Some?
    ensures var plan := FoldersPlan(e, host, resume);
      |plan| == 3 && forall i :: 0 <= i < 3 ==> plan[i] == Do(MkdirSteps(e, host)[i], Abort)
  {
    FoldersPlanTurns(e, host, resume);
  }

  /**
   * Without a `repo` entry, a loop whose `except` clauses only print makes the archive and
   * root folders, then prints the KeyError it caught for `repo`, and goes on; a failing
   * mkdir aborts the task instead.
   */
  lemma FoldersLackingRepo(e: Environment, host: string, failures: map<Step, string>)
    requires e.repo.None?
    ensures var a, r := Exec(Remote(host), None, "mkdir -p " + e.archive), Exec(Remote(host), None, "mkdir -p " + e.root);
      Perform(FoldersPlan(e, host, Continue), failures)
        == if a in failures then Outcome([a], [], Some(Aborted(a, failures[a])))
           else if r in failures then Outcome([a, r], [], Some(Aborted(r, failures[r])))
           else Outcome([a, r], [FolderMessage("repo") + "repo"], None)
  {
    var a, b, c := MkdirActions(e, host, Archive, Continue), MkdirActions(e, host, Root, Continue), MkdirActions(e, host, Repo, Continue);
    FoldersPlanTurns(e, host, Continue);
    assert a == [a[0]] + [] && b == [b[0]] + [] && c == [Note(FolderMessage("repo") + "repo")] + [];
    PerformCons(a[0], [], failures);
    PerformCons(b[0], [], failures);
    PerformCons(c[0], [], failures);
    PerformAppend(a, b, failures);
    PerformAppend(a + b, c, failures);
  }

  /** The only way the loop whose `except` clauses print can stop the task is Fabric's abort of a failing mkdir. */
  lemma FoldersStopOnlyByAbort(e: Environment, host: string, failures: map<Step, string>)
    ensures var o := Perform(FoldersPlan(e, host, Continue), failures);
      o.error.Some? ==> o.error.value.Aborted? && o.error.value.step in failures
  {
    var a, b, c := MkdirActions(e, host, Archive, Continue), MkdirActions(e, host, Root, Continue), MkdirActions(e, host, Repo, Continue);
    FoldersPlanTurns(e, host, Continue);
    OnlyAborts(a + b + c, failures);
  }

  /** With every folder present and no mkdir failing, the loop issues the three mkdirs and goes on. */
  lemma FoldersCreated(e: Environment, host: string, resume: Resume, failures: map<Step, string>)
    requires e.repo.Some?
    requires forall s :: s in MkdirSteps(e, host) ==> s !in failures
    ensures Perform(FoldersPlan(e, host, resume), failures) == Outcome(MkdirSteps(e, host), [], None)
  {
    var ss := MkdirSteps(e, host);
    var plan := FoldersPlan(e, host, resume);
    FoldersPlanSteps(e, host, resume);
    assert forall i :: 0 <= i < 3 ==> ss[i] in ss;
    NoReportsWithoutFailures(plan, failures);
    PerformNoFailures(plan, failures);
    StepsOfDo(plan);
  }

  /**
   * `git init --bare` inside `cd(repo)`: its `except Exception` clause cannot catch Fabric's
   * abort, so a failure aborts the task.
   */
  function InitRepoAction(host: string, repo: string): Action
  {
    Do(Exec(Remote(host), Some(repo), "git init --bare"), Abort)
  }

  /** The local block: add the new repository as a remote named after the environment, and push to it. */
  function LocalRemotePlan(cwd: Option<string>, dest: EnvName, url: string, resume: Resume): seq<Action>
  {
    var h := Handle(Handler(LocalGitMessage, false, resume));
    [Do(Exec(Control, cwd, "git remote add " + dest.Key() + " " + url), h),
     Do(Exec(Control, cwd, "git push " + dest.Key() + " --all"), h)]
  }

  /** The web-root block: an empty repository in the web root that pulls from the bare one. */
  function WebRootPlan(host: string, root: string, repo: string, resume: Resume): seq<Action>
  {
    var h := Handle(Handler(WebRootMessage, false, resume));
    [Do(Exec(Remote(host), Some(root), "git init"), h),
     Do(Exec(Remote(host), Some(root), "git remote add origin " + repo), h),
     Do(Exec(Remote(host), Some(root), "git pull origin master"), h)]
  }

  /** The three `try` blocks after the folder loop, once the repository folder is known. */
  function RepoBlocks(host: string, repo: string, root: string, dest: EnvName, cwd: Option<string>, url: string,
                      resume: Resume): seq<seq<Action>>
  {
    [[InitRepoAction(host, repo)], LocalRemotePlan(cwd, dest, url, resume), WebRootPlan(host, root, repo, resume)]
  }

  function RepoPlan(host: string, repo: string, root: string, dest: EnvName, cwd: Option<string>, url: string,
                    resume: Resume): seq<Action>
  {
    Flatten(RepoBlocks(host, repo, root, dest, cwd, url, resume))
  }

  /** The blocks run one after the other. */
  lemma RepoPlanBlocks(host: string, repo: string, root: string, dest: EnvName, cwd: Option<string>, url: string,
                       resume: Resume)
    ensures RepoPlan(host, repo, root, dest, cwd, url, resume)
         == [InitRepoAction(host, repo)] + LocalRemotePlan(cwd, dest, url, resume) + WebRootPlan(host, root, repo, resume)
  {
    FlattenThree([InitRepoAction(host, repo)], LocalRemotePlan(cwd, dest, url, resume), WebRootPlan(host, root, repo, resume));
  }

  /** The `try` blocks of the repository set-up, one after the other. */
  method SetUpRepo(ex: Executor, host: string, repo: string, root: string, dest: EnvName, cwd: Option<string>, url: string,
                   resume: Resume) returns (err: Option<Error>)
    modifies ex
    ensures ex.Extended(Perform(RepoPlan(host, repo, root, dest, cwd, url, resume), ex.failures))
    ensures err == Perform(RepoPlan(host, repo, root, dest, cwd, url, resume), ex.failures).error
  {
    err := ExecuteAll(ex, RepoBlocks(host, repo, root, dest, cwd, url, resume));
  }

  /** The steps of a repository set-up that nothing stops. */
  function RepoSteps(host: string, repo: string, root: string, dest: EnvName, cwd: Option<string>, url: string): seq<Step>
  {
    [Exec(Remote(host), Some(repo), "git init --bare"),
     Exec(Control, cwd, "git remote add " + dest.Key() + " " + url),
     Exec(Control, cwd, "git push " + dest.Key() + " --all"),
     Exec(Remote(host), Some(root), "git init"),
     Exec(Remote(host), Some(root), "git remote add origin " + repo),
     Exec(Remote(host), Some(root), "git pull origin master")]
  }

  lemma RepoPlanSteps(host: string, repo: string, root: string, dest: EnvName, cwd: Option<string>, url: string, resume: Resume)
    ensures StepsOf(RepoPlan(host, repo, root, dest, cwd, url, resume)) == RepoSteps(host, repo, root, dest, cwd, url)
    ensures forall i :: 0 <= i < |RepoPlan(host, repo, root, dest, cwd, url, resume)| ==>
      RepoPlan(host, repo, root, dest, cwd, url, resume)[i].Do?
  {
    var plan := RepoPlan(host, repo, root, dest, cwd, url, resume);
    var ss := RepoSteps(host, repo, root, dest, cwd, url);
    RepoPlanBlocks(host, repo, root, dest, cwd, url, resume);
    assert |plan| == 6;
    assert forall i :: 0 <= i < 6 ==> plan[i].Do? && plan[i].step == ss[i];
    StepsOfDo(plan);
  }

  // ---------------------------------------------------------------------------------------------
  // `Provision.provision(dest)` on one host, and `Provision.run(dest)` over the role

  /** What follows the folder loop: nothing when the loop has already raised for the missing `repo`. */
  function AfterFolders(cfg: Config, dest: EnvName, host: string): seq<Action>
  {
    match cfg.Env(dest).repo
    case None => []
    case Some(repo) => RepoPlan(host, repo, cfg.Env(dest).root, dest, Some(cfg.local.root), host + ":" + repo, RaiseException)
  }

  /** One host's provisioning: every failure raises, so the first one ends the task. */
  function ProvisionPlan(cfg: Config, dest: EnvName, host: string): seq<Action>
  {
    FoldersPlan(cfg.Env(dest), host, RaiseException) + AfterFolders(cfg, dest, host)
  }

  /** Without a `repo` entry the folder loop raises on its third turn, or earlier. */
  lemma MissingRepoRaises(e: Environment, host: string, resume: Resume, failures: map<Step, string>)
    requires e.repo.None? && resume.RaiseException?
    ensures Perform(FoldersPlan(e, host, resume), failures).error.Some?
    ensures var o := Perform(FoldersPlan(e, host, resume), failures);
      Exec(Remote(host), None, "mkdir -p " + e.archive) !in failures && Exec(Remote(host), None, "mkdir -p " + e.root) !in failures
      ==> o.error == Some(Raised("Exception", FolderMessage("repo") + "repo"))
  {
    var a, b, c := MkdirActions(e, host, Archive, resume), MkdirActions(e, host, Root, resume), MkdirActions(e, host, Repo, resume);
    FoldersPlanTurns(e, host, resume);
    assert c == [Stop(Raised("Exception", FolderMessage("repo") + "repo"))];
    PerformSnoc(a + b, c[0], failures);
    PerformAppend(a, b, failures);
    PerformCons(a[0], [], failures);
    PerformCons(b[0], [], failures);
    assert a == [a[0]] + [] && b == [b[0]] + [];
  }

  /** A folder loop that goes on to the repository set-up has found the `repo` folder. */
  lemma FoldersNeedRepo(e: Environment, host: string, failures: map<Step, string>)
    ensures Perform(FoldersPlan(e, host, RaiseException), failures).error.None? ==> e.repo.Some?
  {
    if e.repo.None? {
      MissingRepoRaises(e, host, RaiseException, failures);
    }
  }

  method Provision(ex: Executor, cfg: Config, dest: EnvName, host: string) returns (err: Option<Error>)
    modifies ex
    ensures ex.Extended(Perform(ProvisionPlan(cfg, dest, host), ex.failures))
    ensures err == Perform(ProvisionPlan(cfg, dest, host), ex.failures).error
  {
    var e := cfg.Env(dest);
    ghost var folders, rest := FoldersPlan(e, host, RaiseException), AfterFolders(cfg, dest, host);
    PerformAppend(folders, rest, ex.failures);
    FoldersNeedRepo(e, host, ex.failures);
    err := MakeFolders(ex, e, host, RaiseException);
    if err.Some? {
      return;
    }
    var repo := e.repo.value;
    ghost var o1 := Perform(folders, ex.failures);
    err := SetUpRepo(ex, host, repo, e.root, dest, Some(cfg.local.root), host + ":" + repo, RaiseException);
    AppendAssoc(old(ex.trace), o1.issued, Perform(rest, ex.failures).issued);
    AppendAssoc(old(ex.reports), o1.reports, Perform(rest, ex.failures).reports);
  }

  /** With nothing failing, a host gets its folders, its bare repository, the local remote and its web root. */
  lemma ProvisionCompletes(cfg: Config, dest: EnvName, host: string, failures: map<Step, string>)
    requires cfg.Env(dest).repo.Some?
    requires failures == map[]
    ensures var e := cfg.Env(dest);
      Perform(ProvisionPlan(cfg, dest, host), failures) ==
        Outcome(MkdirSteps(e, host) + RepoSteps(host, e.repo.value, e.root, dest, Some(cfg.local.root), host + ":" + e.repo.value), [], None)
  {
    var e := cfg.Env(dest);
    var repo := e.repo.value;
    var rp := RepoPlan(host, repo, e.root, dest, Some(cfg.local.root), host + ":" + repo, RaiseException);
    FoldersCreated(e, host, RaiseException, failures);
    RepoPlanSteps(host, repo, e.root, dest, Some(cfg.local.root), host + ":" + repo, RaiseException);
    PerformNoFailures(rp, failures);
    NoReportsWithoutFailures(rp, failures);
    PerformAppend(FoldersPlan(e, host, RaiseException), rp, failures);
  }

  /** A failing `git init --bare` aborts the task, before anything touches the local checkout. */
  lemma BareRepoFailureAborts(cfg: Config, dest: EnvName, host: string, failures: map<Step, string>)
    requires cfg.Env(dest).repo.Some?
    requires forall s :: s in MkdirSteps(cfg.Env(dest), host) ==> s !in failures
    requires Exec(Remote(host), cfg.Env(dest).repo, "git init --bare") in failures
    ensures var s := Exec(Remote(host), cfg.Env(dest).repo, "git init --bare");
      Perform(ProvisionPlan(cfg, dest, host), failures)
        == Outcome(MkdirSteps(cfg.Env(dest), host) + [s], [], Some(Aborted(s, failures[s])))
  {
    var e := cfg.Env(dest);
    var repo := e.repo.value;
    var a := InitRepoAction(host, repo);
    var tail := LocalRemotePlan(Some(cfg.local.root), dest, host + ":" + repo, RaiseException) + WebRootPlan(host, e.root, repo, RaiseException);
    RepoPlanBlocks(host, repo, e.root, dest, Some(cfg.local.root), host + ":" + repo, RaiseException);
    assert RepoPlan(host, repo, e.root, dest, Some(cfg.local.root), host + ":" + repo, RaiseException) == [a] + tail;
    FoldersCreated(e, host, RaiseException, failures);
    PerformCons(a, tail, failures);
    PerformAppend(FoldersPlan(e, host, RaiseException), [a] + tail, failures);
  }

  /** The nine commands of one host's provisioning, when the environment has every folder. */
  function ProvisionSteps(cfg: Config, dest: EnvName, host: string): seq<Step>
    requires cfg.Env(dest).repo.Some?
  {
    var e := cfg.Env(dest);
    MkdirSteps(e, host) + RepoSteps(host, e.repo.value, e.root, dest, Some(cfg.local.root), host + ":" + e.repo.value)
  }

  /**
   * What a failure of command `i` does: the mkdirs and `git init --bare` abort, since their
   * `except Exception` lets Fabric's abort through; the bare `except` of the local and
   * web-root blocks catches it and raises the block's message.
   */
  function StepPolicy(i: nat): Policy
    requires i < 9
  {
    if i < 4 then Abort
    else if i < 6 then Handle(Handler(LocalGitMessage, false, RaiseException))
    else Handle(Handler(WebRootMessage, false, RaiseException))
  }

  /** One host's provisioning is its nine commands, each failing as its block's `try` decides. */
  lemma ProvisionPlanActions(cfg: Config, dest: EnvName, host: string)
    requires cfg.Env(dest).repo.Some?
    ensures var plan := ProvisionPlan(cfg, dest, host);
      |plan| == 9 &&
      forall i :: 0 <= i < 9 ==> plan[i] == Do(ProvisionSteps(cfg, dest, host)[i], StepPolicy(i))
  {
    var e := cfg.Env(dest);
    var repo := e.repo.value;
    var url := host + ":" + repo;
    var folders := FoldersPlan(e, host, RaiseException);
    var rp := RepoPlan(host, repo, e.root, dest, Some(cfg.local.root), url, RaiseException);
    FoldersPlanSteps(e, host, RaiseException);
    RepoPlanBlocks(host, repo, e.root, dest, Some(cfg.local.root), url, RaiseException);
    var steps := ProvisionSteps(cfg, dest, host);
    assert forall i :: 0 <= i < 6 ==> rp[i] == Do(steps[i + 3], StepPolicy(i + 3));
    assert ProvisionPlan(cfg, dest, host) == folders + rp;
  }

  /**
   * The first command that fails is the last one issued: a mkdir or `git init --bare` aborts
   * with its failure, a local or web-root command raises its block's message.
   */
  lemma FirstFailureStops(cfg: Config, dest: EnvName, host: string, i: nat, failures: map<Step, string>)
    requires cfg.Env(dest).repo.Some? && i < 9
    requires ProvisionSteps(cfg, dest, host)[i] in failures
    requires forall j :: 0 <= j < i ==> ProvisionSteps(cfg, dest, host)[j] !in failures
    ensures var steps := ProvisionSteps(cfg, dest, host);
      Perform(ProvisionPlan(cfg, dest, host), failures)
        == Outcome(steps[..i + 1], [],
                   Some(if i < 4 then Aborted(steps[i], failures[steps[i]])
                        else Raised("Exception", if i < 6 then LocalGitMessage else WebRootMessage)))
  {
    ProvisionPlanActions(cfg, dest, host);
    FirstFailureStopsAt(ProvisionPlan(cfg, dest, host), ProvisionSteps(cfg, dest, host), i, failures);
    assert LocalGitMessage + "" == LocalGitMessage && WebRootMessage + "" == WebRootMessage;
  }

  /** The turns of `execute(provision, dest, role=dest)`: each of the role's hosts in turn. */
  function HostJobs(cfg: Config, dest: EnvName, hosts: seq<string>): (jobs: seq<seq<Action>>)
    ensures |jobs| == |hosts|
  {
    seq(|hosts|, i requires 0 <= i < |hosts| => ProvisionPlan(cfg, dest, hosts[i]))
  }

  /**
   * `execute` provisions each distinct stripped host of the role once: job `i` is the plan
   * for the role's `i`-th host, which no other job shares and which stands, stripped, in
   * the environment's `hosts`.
   */
  lemma HostJob(cfg: Config, dest: EnvName, i: nat)
    requires i < |cfg.Role(dest)|
    ensures var role := cfg.Role(dest);
      HostJobs(cfg, dest, role)[i] == ProvisionPlan(cfg, dest, role[i]) &&
      (forall j :: 0 <= j < |role| && j != i ==> role[j] != role[i]) &&
      exists k :: 0 <= k < |cfg.Env(dest).hosts| && Strip(cfg.Env(dest).hosts[k]) == role[i]
  {
    ExecuteHostsOnce(cfg.Env(dest).hosts);
    assert cfg.Role(dest)[i] in cfg.Role(dest);
  }

  function RolePlan(cfg: Config, dest: EnvName): seq<Action>
  {
    Flatten(HostJobs(cfg, dest, cfg.Role(dest)))
  }

  /** An exception on one host ends the task: the hosts after it are never provisioned. */
  lemma RoleStopsAtFailedHost(cfg: Config, dest: EnvName, i: nat, failures: map<Step, string>)
    requires i < |cfg.Role(dest)|
    requires Perform(Flatten(HostJobs(cfg, dest, cfg.Role(dest))[..i + 1]), failures).error.Some?
    ensures Perform(RolePlan(cfg, dest), failures) == Perform(Flatten(HostJobs(cfg, dest, cfg.Role(dest))[..i + 1]), failures)
  {
    FlattenStopped(HostJobs(cfg, dest, cfg.Role(dest)), i, failures);
  }

  /** `Provision.run(dest)`: Fabric's `execute` runs the `provision` task on each host of the role in turn. */
  method Run(ex: Executor, cfg: Config, dest: EnvName) returns (err: Option<Error>)
    modifies ex
    ensures ex.Extended(Perform(RolePlan(cfg, dest), ex.failures))
    ensures err == Perform(RolePlan(cfg, dest), ex.failures).error
  {
    err := ExecuteAll(ex, HostJobs(cfg, dest, cfg.Role(dest)));
  }
}
