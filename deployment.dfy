/**
 * The `deploy` task (class Deploy): push the local repository to the destination's git
 * remote, bring the web root of every host of the destination role up to date with
 * `git pull`, then run the post-deployment commands and the application-restart commands
 * on every host.  The last two stages are skipped when their command lists are empty.
 * The three host stages are `@parallel` Fabric tasks: every host runs its own job, and a
 * stage in which some host failed stops the deployment.
 */
module Deployment {
  import opened Base
  import opened Percent
  import opened Environments
  import opened Execution

  /** `dict(branch=branch, dest=dest, dest_branch=dest_branch)`, each value as `%s` prints it. */
  function CmdData(branch: string, dest: string, destBranch: string): (m: map<string, string>)
    ensures m.Keys == {"branch", "dest", "dest_branch"}
    ensures m["branch"] == branch && m["dest"] == dest && m["dest_branch"] == destBranch
  {
    map["branch" := branch, "dest" := dest, "dest_branch" := destBranch]
  }

  /** What `%s` prints for Python's `None`: the values of the class attribute until `run` sets them. */
  const NoneText := "None"

  /** `env[key]`: the environment registered under `key`, if any. */
  function EnvByKey(key: string): (r: Option<EnvName>)
    ensures forall n: EnvName :: n.Key() == key <==> r == Some(n)
  {
    if key == "local" then Some(Local)
    else if key == "dev" then Some(Dev)
    else if key == "prod" then Some(Prod)
    else None
  }

  /** `env[self.cmd_data['dest']]`, or the KeyError either lookup raises. */
  function DestOf(data: map<string, string>): (r: Result<EnvName, Error>)
    ensures r.Success? <==> "dest" in data && EnvByKey(data["dest"]).Some?
    ensures r.Success? ==> r.value.Key() == data["dest"]
  {
    if "dest" !in data then Failure(Raised("KeyError", "dest"))
    else match EnvByKey(data["dest"])
      case None => Failure(Raised("KeyError", data["dest"]))
      case Some(n) => Success(n)
  }

  /** `git push %(dest)s %(branch)s:%(dest_branch)s`. */
  const PushPieces: seq<Piece> :=
    [Lit("git push "), Field("dest")] + [Lit(" "), Field("branch")] + [Lit(":"), Field("dest_branch")]

  /** `git reset --hard && git pull origin %(dest_branch)s`. */
  const UpdatePieces: seq<Piece> := [Lit("git reset --hard && git pull origin ")] + [Field("dest_branch")]

  /** Pushing `branch` to the remote named after the destination, as its branch `destBranch`. */
  function PushText(dest: string, branch: string, destBranch: string): string
  {
    "git push " + dest + " " + branch + ":" + destBranch
  }

  /** Discarding local changes in the web root, then pulling `destBranch` from `origin`. */
  function UpdateText(destBranch: string): string
  {
    "git reset --hard && git pull origin " + destBranch
  }

  /** `run(template % fields)`, or the error `%` raises while the command is built. */
  function TemplateAction(target: Target, cwd: Option<string>, template: string, fields: map<string, string>, policy: Policy): Action
  {
    match Interpolate(template, fields)
    case Success(t) => Do(Exec(target, cwd, t), policy)
    case Failure(f) => Stop(BadTemplate(f))
  }

  /**
   * The same for a template fixed in the task's code, given by its pieces: its `%` meaning is
   * Render, which is what interpolating its text computes (PushRenders, UpdateRenders).
   */
  function PiecesAction(target: Target, cwd: Option<string>, template: seq<Piece>, fields: map<string, string>, policy: Policy): Action
  {
    match Render(template, fields)
    case Success(t) => Do(Exec(target, cwd, t), policy)
    case Failure(f) => Stop(BadTemplate(f))
  }

  /** `push_app`: inside `lcd(env.local['root'])`, `local(...)` through the quiet filter. */
  function PushPlan(cfg: Config, data: map<string, string>): seq<Action>
  {
    [PiecesAction(Control, Some(cfg.local.root), PushPieces, data, RunPolicy(cfg.quietCommands))]
  }

  /** The three `@parallel` tasks `run` executes on the destination role. */
  datatype Task = UpdateRemote | PostDeploy | Restart
  {
    function Name(): string
    {
      match this
      case UpdateRemote => "update_remote"
      case PostDeploy => "post_deploy"
      case Restart => "restart"
    }
  }

  /** `update_remote` on one host: inside `cd(env[dest]['root'])`, the update command. */
  function UpdateJob(cfg: Config, data: map<string, string>, host: string): seq<Action>
  {
    match DestOf(data)
    case Failure(e) => [Stop(e)]
    case Success(d) =>
      [PiecesAction(Remote(host), Some(cfg.Env(d).root), UpdatePieces, data, RunPolicy(cfg.quietCommands))]
  }

  /** `post_deploy` on one host: inside `cd(env[dest]['root'])`, `run(cmd % env[dest])` for each command. */
  function PostDeployJob(cfg: Config, data: map<string, string>, host: string): seq<Action>
  {
    match DestOf(data)
    case Failure(e) => [Stop(e)]
    case Success(d) =>
      var e := cfg.Env(d);
      seq(|cfg.postDeployCommands|, i requires 0 <= i < |cfg.postDeployCommands| =>
        TemplateAction(Remote(host), Some(e.root), cfg.postDeployCommands[i], EnvFields(e), RunPolicy(cfg.quietCommands)))
  }

  /** `restart` on one host: `run(cmd)` for each command, with no interpolation and no `cd`. */
  function RestartJob(cfg: Config, host: string): seq<Action>
  {
    Commands(Remote(host), None, cfg.appRestartCommands, RunPolicy(cfg.quietCommands))
  }

  /** What one host of the role does for `task`. */
  function Job(cfg: Config, data: map<string, string>, task: Task, host: string): seq<Action>
  {
    match task
    case UpdateRemote => UpdateJob(cfg, data, host)
    case PostDeploy => PostDeployJob(cfg, data, host)
    case Restart => RestartJob(cfg, host)
  }

  /** One job per host of a host list, in order. */
  function StageJobs(cfg: Config, data: map<string, string>, task: Task, hosts: seq<string>): (jobs: seq<seq<Action>>)
    ensures |jobs| == |hosts|
    ensures forall i :: 0 <= i < |hosts| ==> jobs[i] == Job(cfg, data, task, hosts[i])
  {
    seq(|hosts|, i requires 0 <= i < |hosts| => Job(cfg, data, task, hosts[i]))
  }

  /** `execute(task, role=dest)`: one job per distinct stripped host of the role. */
  function Stage(cfg: Config, data: map<string, string>, task: Task, dest: EnvName, failures: map<Step, string>): Outcome
  {
    PerformStage(task.Name(), StageJobs(cfg, data, task, cfg.Role(dest)), failures)
  }

  /**
   * A stage runs each distinct stripped host of the role once: job `i` is the task's job on
   * the role's `i`-th host, which no other job shares and which stands, stripped, in the
   * environment's `hosts`.
   */
  lemma StageHostsOnce(cfg: Config, data: map<string, string>, task: Task, dest: EnvName, i: nat)
    requires i < |cfg.Role(dest)|
    ensures var role := cfg.Role(dest);
      StageJobs(cfg, data, task, role)[i] == Job(cfg, data, task, role[i]) &&
      (forall j :: 0 <= j < |role| && j != i ==> role[j] != role[i]) &&
      exists k :: 0 <= k < |cfg.Env(dest).hosts| && Strip(cfg.Env(dest).hosts[k]) == role[i]
  {
    ExecuteHostsOnce(cfg.Env(dest).hosts);
    assert cfg.Role(dest)[i] in cfg.Role(dest);
  }

  /** A stage `run` executes only when its command list is not empty. */
  function OptionalStage(cfg: Config, data: map<string, string>, task: Task, dest: EnvName, failures: map<Step, string>): Outcome
  {
    var commands := if task.PostDeploy? then cfg.postDeployCommands else cfg.appRestartCommands;
    if task.UpdateRemote? || |commands| > 0 then Stage(cfg, data, task, dest, failures) else Done
  }

  /** The three host stages, each started only if the previous one succeeded on every host. */
  function StagesOutcome(cfg: Config, data: map<string, string>, dest: EnvName, failures: map<Step, string>): Outcome
  {
    Then(Stage(cfg, data, UpdateRemote, dest, failures),
    Then(OptionalStage(cfg, data, PostDeploy, dest, failures), OptionalStage(cfg, data, Restart, dest, failures)))
  }

  /** The reference meaning of `Deploy.run`: the push, then the host stages unless the push aborted. */
  function DeployOutcome(cfg: Config, data: map<string, string>, dest: EnvName, failures: map<Step, string>): Outcome
  {
    Then(Perform(PushPlan(cfg, data), failures), StagesOutcome(cfg, data, dest, failures))
  }

  class Deploy {
    /** The arguments of the last `run`, as the task's `%` templates see them. */
    var cmdData: map<string, string>

    constructor()
      ensures cmdData == CmdData(NoneText, NoneText, NoneText)
    {
      cmdData := CmdData(NoneText, NoneText, NoneText);
    }

    /** `run(dest, branch, dest_branch)`. */
    method Run(ex: Executor, cfg: Config, dest: EnvName, branch: string, destBranch: string) returns (err: Option<Error>)
      modifies this, ex
      ensures cmdData == CmdData(branch, dest.Key(), destBranch)
      ensures ex.Extended(DeployOutcome(cfg, cmdData, dest, ex.failures))
      ensures err == DeployOutcome(cfg, cmdData, dest, ex.failures).error
    {
      cmdData := CmdData(branch, dest.Key(), destBranch);
      ghost var t0, r0 := ex.trace, ex.reports;
      err := PushApp(ex, cfg);
      ghost var o1 := Perform(PushPlan(cfg, cmdData), ex.failures);
      if err.Some? {
        return;
      }
      err := RunStages(ex, cfg, dest);
      ghost var o2 := StagesOutcome(cfg, cmdData, dest, ex.failures);
      AppendAssoc(t0, o1.issued, o2.issued);
      AppendAssoc(r0, o1.reports, o2.reports);
    }

    /** The three `execute(..., role=dest)` calls of `run`. */
    method RunStages(ex: Executor, cfg: Config, dest: EnvName) returns (err: Option<Error>)
      modifies ex
      ensures ex.Extended(StagesOutcome(cfg, cmdData, dest, ex.failures))
      ensures err == StagesOutcome(cfg, cmdData, dest, ex.failures).error
    {
      ghost var t0, r0 := ex.trace, ex.reports;
      err := RunOptionalStage(ex, cfg, UpdateRemote, dest);
      ghost var o1 := Stage(cfg, cmdData, UpdateRemote, dest, ex.failures);
      if err.Some? {
        return;
      }
      ghost var t1, r1 := ex.trace, ex.reports;
      err := RunOptionalStage(ex, cfg, PostDeploy, dest);
      ghost var o2 := OptionalStage(cfg, cmdData, PostDeploy, dest, ex.failures);
      AppendAssoc(t0, o1.issued, o2.issued);
      AppendAssoc(r0, o1.reports, o2.reports);
      if err.Some? {
        return;
      }
      err := RunOptionalStage(ex, cfg, Restart, dest);
      ghost var o3 := OptionalStage(cfg, cmdData, Restart, dest, ex.failures);
      AppendAssoc(t0, o1.issued + o2.issued, o3.issued);
      AppendAssoc(r0, o1.reports + o2.reports, o3.reports);
      AppendAssoc(o1.issued, o2.issued, o3.issued);
      AppendAssoc(o1.reports, o2.reports, o3.reports);
    }

    /** `if len(COMMANDS): execute(task, role=dest)`; the update stage always runs. */
    method RunOptionalStage(ex: Executor, cfg: Config, task: Task, dest: EnvName) returns (err: Option<Error>)
      modifies ex
      ensures ex.Extended(OptionalStage(cfg, cmdData, task, dest, ex.failures))
      ensures err == OptionalStage(cfg, cmdData, task, dest, ex.failures).error
    {
      var commands := if task.PostDeploy? then cfg.postDeployCommands else cfg.appRestartCommands;
      if task.UpdateRemote? || |commands| > 0 {
        err := ExecuteOnRole(ex, cfg, task, cfg.Role(dest));
      } else {
        err := None;
        assert ex.trace == old(ex.trace) + [] && ex.reports == old(ex.reports) + [];
      }
    }

    /** `push_app`. */
    method PushApp(ex: Executor, cfg: Config) returns (err: Option<Error>)
      modifies ex
      ensures ex.Extended(Perform(PushPlan(cfg, cmdData), ex.failures))
      ensures err == Perform(PushPlan(cfg, cmdData), ex.failures).error
    {
      err := Execute(ex, PushPlan(cfg, cmdData));
    }

    /** `execute(task, role=...)`: every host runs its job; the stage fails if one of them failed. */
    method ExecuteOnRole(ex: Executor, cfg: Config, task: Task, hosts: seq<string>) returns (err: Option<Error>)
      modifies ex
      ensures ex.Extended(PerformStage(task.Name(), StageJobs(cfg, cmdData, task, hosts), ex.failures))
      ensures err == PerformStage(task.Name(), StageJobs(cfg, cmdData, task, hosts), ex.failures).error
    {
      ghost var jobs := StageJobs(cfg, cmdData, task, hosts);
      var failed := false;
      var i := 0;
      ghost var done := Done;
      assert jobs[..0] == [];
      while i < |hosts|
        invariant 0 <= i <= |hosts|
        invariant done == RunAll(jobs[..i], ex.failures)
        invariant ex.trace == old(ex.trace) + done.issued && ex.reports == old(ex.reports) + done.reports
        invariant failed <==> done.error.Some?
      {
        var e := RunTask(ex, cfg, task, hosts[i]);
        ghost var o := Perform(jobs[i], ex.failures);
        AppendAssoc(old(ex.trace), done.issued, o.issued);
        AppendAssoc(old(ex.reports), done.reports, o.reports);
        assert jobs[..i + 1][..i] == jobs[..i];
        done := Join(done, o);
        failed := failed || e.Some?;
        i := i + 1;
      }
      assert jobs[..i] == jobs;
      err := if failed then Some(HostsFailed(task.Name())) else None;
    }

    /** `task` on one host: `update_remote`, `post_deploy` or `restart`. */
    method RunTask(ex: Executor, cfg: Config, task: Task, host: string) returns (err: Option<Error>)
      modifies ex
      ensures ex.Extended(Perform(Job(cfg, cmdData, task, host), ex.failures))
      ensures err == Perform(Job(cfg, cmdData, task, host), ex.failures).error
    {
      // the `for` loops of `post_deploy` and `restart` are Execute's loop over the job
      err := Execute(ex, Job(cfg, cmdData, task, host));
    }
  }

  // ---------------------------------------------------------------------------------------------
  // The command lines

  /** A literal followed by a field, and nothing after them. */
  lemma RenderPair(text: string, key: string, m: map<string, string>)
    requires key in m
    ensures Render([Lit(text), Field(key)], m) == Success(text + m[key])
  {
    RenderLitField(text, key, [], m, []);
    assert [Lit(text), Field(key)] + [] == [Lit(text), Field(key)];
    assert text + m[key] + [] == text + m[key];
  }

  /** The push template never fails on the recorded arguments, and names remote, branch and target branch. */
  lemma PushRenders(branch: string, dest: string, destBranch: string)
    ensures Render(PushPieces, CmdData(branch, dest, destBranch)) == Success(PushText(dest, branch, destBranch))
    ensures Interpolate(Format(PushPieces), CmdData(branch, dest, destBranch)) == Success(PushText(dest, branch, destBranch))
  {
    var m := CmdData(branch, dest, destBranch);
    var a, b, c := [Lit("git push "), Field("dest")], [Lit(" "), Field("branch")], [Lit(":"), Field("dest_branch")];
    assert PlainPieces(a + b + c) by {
      assert PlainKey("dest") && PlainKey("branch") && PlainKey("dest_branch");
      PlainAppend(a, b);
      PlainAppend(a + b, c);
    }
    FormatInterpolates(a + b + c, m);
    RenderPair("git push ", "dest", m);
    RenderPair(" ", "branch", m);
    RenderPair(":", "dest_branch", m);
    RenderAppend(a, b, m);
    RenderAppend(a + b, c, m);
    AppendAssoc("git push " + dest, " ", branch);
    AppendAssoc("git push " + dest + " " + branch, ":", destBranch);
  }

  /** The update template never fails on the recorded arguments, and pulls the target branch. */
  lemma UpdateRenders(branch: string, dest: string, destBranch: string)
    ensures Render(UpdatePieces, CmdData(branch, dest, destBranch)) == Success(UpdateText(destBranch))
    ensures Interpolate(Format(UpdatePieces), CmdData(branch, dest, destBranch)) == Success(UpdateText(destBranch))
  {
    var m := CmdData(branch, dest, destBranch);
    assert UpdatePieces == [Lit("git reset --hard && git pull origin "), Field("dest_branch")];
    assert PlainPieces(UpdatePieces) by { assert PlainKey("dest_branch"); }
    FormatInterpolates(UpdatePieces, m);
    RenderPair("git reset --hard && git pull origin ", "dest_branch", m);
  }

  // ---------------------------------------------------------------------------------------------
  // What each host runs

  /** The post-deployment commands, each interpolated with the destination's fields. */
  function PostDeployTexts(templates: seq<string>, fields: map<string, string>): (texts: seq<string>)
    requires forall j :: 0 <= j < |templates| ==> Interpolate(templates[j], fields).Success?
  {
    seq(|templates|, j requires 0 <= j < |templates| && Interpolate(templates[j], fields).Success? =>
      Interpolate(templates[j], fields).value)
  }

  /** The post-deployment templates can all be interpolated with the destination's fields. */
  predicate PostDeployBuilds(cfg: Config, dest: EnvName)
  {
    forall j :: 0 <= j < |cfg.postDeployCommands| ==>
      Interpolate(cfg.postDeployCommands[j], EnvFields(cfg.Env(dest))).Success?
  }

  /** Reference: the commands one host of role `dest` runs for `task`, when none of them fails. */
  function HostSteps(cfg: Config, dest: EnvName, destBranch: string, task: Task, host: string): seq<Step>
    requires task.PostDeploy? ==> PostDeployBuilds(cfg, dest)
  {
    var e := cfg.Env(dest);
    match task
    case UpdateRemote => [Exec(Remote(host), Some(e.root), UpdateText(destBranch))]
    case PostDeploy =>
      var texts := PostDeployTexts(cfg.postDeployCommands, EnvFields(e));
      seq(|texts|, j requires 0 <= j < |texts| => Exec(Remote(host), Some(e.root), texts[j]))
    case Restart =>
      seq(|cfg.appRestartCommands|, j requires 0 <= j < |cfg.appRestartCommands| =>
        Exec(Remote(host), None, cfg.appRestartCommands[j]))
  }

  /** Reference: the commands of a stage, host after host. */
  function RoleSteps(cfg: Config, dest: EnvName, destBranch: string, task: Task, hosts: seq<string>): seq<Step>
    requires task.PostDeploy? ==> PostDeployBuilds(cfg, dest)
  {
    if hosts == [] then []
    else RoleSteps(cfg, dest, destBranch, task, hosts[..|hosts| - 1]) + HostSteps(cfg, dest, destBranch, task, hosts[|hosts| - 1])
  }

  /** With nothing failing, a host's job issues exactly the reference commands and prints nothing. */
  lemma JobCompletes(cfg: Config, dest: EnvName, branch: string, destBranch: string, task: Task, host: string)
    requires PostDeployBuilds(cfg, dest)
    ensures Perform(Job(cfg, CmdData(branch, dest.Key(), destBranch), task, host), map[])
         == Outcome(HostSteps(cfg, dest, destBranch, task, host), [], None)
  {
    match task
    case UpdateRemote => UpdateCompletes(cfg, dest, branch, destBranch, host);
    case PostDeploy => PostDeployCompletes(cfg, dest, branch, destBranch, host);
    case Restart => RestartCompletes(cfg, dest, branch, destBranch, host);
  }

  lemma UpdateCompletes(cfg: Config, dest: EnvName, branch: string, destBranch: string, host: string)
    requires PostDeployBuilds(cfg, dest)
    ensures Perform(Job(cfg, CmdData(branch, dest.Key(), destBranch), UpdateRemote, host), map[])
         == Outcome(HostSteps(cfg, dest, destBranch, UpdateRemote, host), [], None)
  {
    var data := CmdData(branch, dest.Key(), destBranch);
    var step := Exec(Remote(host), Some(cfg.Env(dest).root), UpdateText(destBranch));
    var a := Do(step, RunPolicy(cfg.quietCommands));
    assert UpdateJob(cfg, data, host) == [a] + [] by {
      assert DestOf(data) == Success(dest);
      UpdateRenders(branch, dest.Key(), destBranch);
    }
    assert Perform([a] + [], map[]) == Outcome([step], [], None) by {
      PerformCons(a, [], map[]);
      assert Effect(a, map[]) == Outcome([step], [], None);
      ThenDone(Effect(a, map[]));
    }
    assert HostSteps(cfg, dest, destBranch, UpdateRemote, host) == [step];
  }

  lemma PostDeployCompletes(cfg: Config, dest: EnvName, branch: string, destBranch: string, host: string)
    requires PostDeployBuilds(cfg, dest)
    ensures Perform(Job(cfg, CmdData(branch, dest.Key(), destBranch), PostDeploy, host), map[])
         == Outcome(HostSteps(cfg, dest, destBranch, PostDeploy, host), [], None)
  {
    var data := CmdData(branch, dest.Key(), destBranch);
    assert DestOf(data) == Success(dest);
    var plan := PostDeployJob(cfg, data, host);
    var steps := HostSteps(cfg, dest, destBranch, PostDeploy, host);
    assert forall j :: 0 <= j < |plan| ==> plan[j] == Do(steps[j], RunPolicy(cfg.quietCommands));
    PerformNoFailures(plan, map[]);
    StepsOfDo(plan);
    NoReportsWithoutFailures(plan, map[]);
  }

  lemma RestartCompletes(cfg: Config, dest: EnvName, branch: string, destBranch: string, host: string)
    requires PostDeployBuilds(cfg, dest)
    ensures Perform(Job(cfg, CmdData(branch, dest.Key(), destBranch), Restart, host), map[])
         == Outcome(HostSteps(cfg, dest, destBranch, Restart, host), [], None)
  {
    var plan := Commands(Remote(host), None, cfg.appRestartCommands, RunPolicy(cfg.quietCommands));
    PerformNoFailures(plan, map[]);
    CommandsSteps(Remote(host), None, cfg.appRestartCommands, RunPolicy(cfg.quietCommands));
    NoReportsWithoutFailures(plan, map[]);
  }

  /** With nothing failing, a stage issues every host's reference commands and does not fail. */
  lemma {:induction false} RoleCompletes(cfg: Config, dest: EnvName, branch: string, destBranch: string, task: Task, hosts: seq<string>)
    requires PostDeployBuilds(cfg, dest)
    ensures RunAll(StageJobs(cfg, CmdData(branch, dest.Key(), destBranch), task, hosts), map[])
         == Outcome(RoleSteps(cfg, dest, destBranch, task, hosts), [], None)
  {
    if hosts != [] {
      var data := CmdData(branch, dest.Key(), destBranch);
      var jobs := StageJobs(cfg, data, task, hosts);
      var init := hosts[..|hosts| - 1];
      assert jobs[..|jobs| - 1] == StageJobs(cfg, data, task, init);
      RoleCompletes(cfg, dest, branch, destBranch, task, init);
      JobCompletes(cfg, dest, branch, destBranch, task, hosts[|hosts| - 1]);
    }
  }

  /** The push: one command, on the control machine, in the local root. */
  lemma PushCompletes(cfg: Config, dest: EnvName, branch: string, destBranch: string)
    ensures Perform(PushPlan(cfg, CmdData(branch, dest.Key(), destBranch)), map[])
         == Outcome([Exec(Control, Some(cfg.local.root), PushText(dest.Key(), branch, destBranch))], [], None)
  {
    var data := CmdData(branch, dest.Key(), destBranch);
    var push := Exec(Control, Some(cfg.local.root), PushText(dest.Key(), branch, destBranch));
    PushRenders(branch, dest.Key(), destBranch);
    var a := Do(push, RunPolicy(cfg.quietCommands));
    assert PushPlan(cfg, data) == [a] + [];
    PerformCons(a, [], map[]);
    assert Effect(a, map[]) == Outcome([push], [], None);
    ThenDone(Effect(a, map[]));
  }

  /** With nothing failing, a stage that runs issues the reference commands; one that is skipped, none. */
  lemma OptionalStageCompletes(cfg: Config, dest: EnvName, branch: string, destBranch: string, task: Task)
    requires PostDeployBuilds(cfg, dest)
    ensures OptionalStage(cfg, CmdData(branch, dest.Key(), destBranch), task, dest, map[])
         == Outcome(RoleSteps(cfg, dest, destBranch, task, cfg.Role(dest)), [], None)
  {
    var hosts := cfg.Role(dest);
    RoleCompletes(cfg, dest, branch, destBranch, task, hosts);
    if task.PostDeploy? && |cfg.postDeployCommands| == 0 {
      EmptyRole(cfg, dest, destBranch, task, hosts);
    }
    if task.Restart? && |cfg.appRestartCommands| == 0 {
      EmptyRole(cfg, dest, destBranch, task, hosts);
    }
  }

  /**
   * With nothing failing, the host stages update every host, then run the post-deployment
   * commands on every host, then the restart commands.
   */
  lemma StagesComplete(cfg: Config, dest: EnvName, branch: string, destBranch: string)
    requires PostDeployBuilds(cfg, dest)
    ensures var hosts := cfg.Role(dest);
      StagesOutcome(cfg, CmdData(branch, dest.Key(), destBranch), dest, map[])
        == Outcome(RoleSteps(cfg, dest, destBranch, UpdateRemote, hosts)
                   + RoleSteps(cfg, dest, destBranch, PostDeploy, hosts)
                   + RoleSteps(cfg, dest, destBranch, Restart, hosts), [], None)
  {
    var hosts := cfg.Role(dest);
    var u, p, r := RoleSteps(cfg, dest, destBranch, UpdateRemote, hosts), RoleSteps(cfg, dest, destBranch, PostDeploy, hosts),
                   RoleSteps(cfg, dest, destBranch, Restart, hosts);
    OptionalStageCompletes(cfg, dest, branch, destBranch, UpdateRemote);
    OptionalStageCompletes(cfg, dest, branch, destBranch, PostDeploy);
    OptionalStageCompletes(cfg, dest, branch, destBranch, Restart);
    AppendAssoc(u, p, r);
  }

  /**
   * With nothing failing, a deployment pushes once from the local root, then updates every
   * host, then runs the post-deployment commands on every host, then the restart commands.
   */
  lemma DeployCompletes(cfg: Config, dest: EnvName, branch: string, destBranch: string)
    requires PostDeployBuilds(cfg, dest)
    ensures var hosts := cfg.Role(dest);
      DeployOutcome(cfg, CmdData(branch, dest.Key(), destBranch), dest, map[])
        == Outcome([Exec(Control, Some(cfg.local.root), PushText(dest.Key(), branch, destBranch))]
                   + (RoleSteps(cfg, dest, destBranch, UpdateRemote, hosts)
                   + RoleSteps(cfg, dest, destBranch, PostDeploy, hosts)
                   + RoleSteps(cfg, dest, destBranch, Restart, hosts)), [], None)
  {
    PushCompletes(cfg, dest, branch, destBranch);
    StagesComplete(cfg, dest, branch, destBranch);
  }

  /** A stage whose command list is empty would issue nothing on any host. */
  lemma {:induction false} EmptyRole(cfg: Config, dest: EnvName, destBranch: string, task: Task, hosts: seq<string>)
    requires PostDeployBuilds(cfg, dest)
    requires task.PostDeploy? ==> cfg.postDeployCommands == []
    requires task.Restart? ==> cfg.appRestartCommands == []
    requires !task.UpdateRemote?
    ensures RoleSteps(cfg, dest, destBranch, task, hosts) == []
  {
    if hosts != [] {
      EmptyRole(cfg, dest, destBranch, task, hosts[..|hosts| - 1]);
    }
  }

  /** With both optional lists empty, a deployment is the push followed by the update stage. */
  lemma EmptyStagesSkipped(cfg: Config, data: map<string, string>, dest: EnvName, failures: map<Step, string>)
    requires cfg.postDeployCommands == [] && cfg.appRestartCommands == []
    ensures DeployOutcome(cfg, data, dest, failures)
         == Then(Perform(PushPlan(cfg, data), failures), Stage(cfg, data, UpdateRemote, dest, failures))
  {
    var s := Stage(cfg, data, UpdateRemote, dest, failures);
    ThenDone(Done);
    ThenDone(s);
    assert StagesOutcome(cfg, data, dest, failures) == Then(s, Done);
  }

  // ---------------------------------------------------------------------------------------------
  // Where the commands run, and what a failure stops

  /** Every step is a command on one of `hosts`. */
  predicate OnRole(steps: seq<Step>, hosts: seq<string>)
  {
    forall i :: 0 <= i < |steps| ==> steps[i].Exec? && steps[i].target.Remote? && steps[i].target.host in hosts
  }

  lemma {:induction false} StepsOnHost(plan: seq<Action>, host: string, hosts: seq<string>)
    requires host in hosts
    requires forall i :: 0 <= i < |plan| && plan[i].Do? ==> plan[i].step.Exec? && plan[i].step.target == Remote(host)
    ensures OnRole(StepsOf(plan), hosts)
  {
    if plan != [] {
      assert forall i :: 0 <= i < |plan[1..]| ==> plan[1..][i] == plan[i + 1];
      StepsOnHost(plan[1..], host, hosts);
      assert StepsOf(plan) == (if plan[0].Do? then [plan[0].step] else []) + StepsOf(plan[1..]);
    }
  }

  /** A host's job only runs commands on that host. */
  lemma JobOnRole(cfg: Config, data: map<string, string>, task: Task, host: string, hosts: seq<string>)
    requires host in hosts
    ensures OnRole(StepsOf(Job(cfg, data, task, host)), hosts)
  {
    match task
    case UpdateRemote =>
      var plan := UpdateJob(cfg, data, host);
      assert forall i :: 0 <= i < |plan| && plan[i].Do? ==> plan[i].step.Exec? && plan[i].step.target == Remote(host);
      StepsOnHost(plan, host, hosts);
    case PostDeploy =>
      var plan := PostDeployJob(cfg, data, host);
      assert forall i :: 0 <= i < |plan| && plan[i].Do? ==> plan[i].step.Exec? && plan[i].step.target == Remote(host);
      StepsOnHost(plan, host, hosts);
    case Restart =>
      var plan := RestartJob(cfg, host);
      assert forall i :: 0 <= i < |plan| && plan[i].Do? ==> plan[i].step.Exec? && plan[i].step.target == Remote(host);
      StepsOnHost(plan, host, hosts);
  }

  /** A stage only runs commands on the hosts of its role. */
  lemma {:induction false} RunAllOnRole(cfg: Config, data: map<string, string>, task: Task, role: seq<string>, hosts: seq<string>, failures: map<Step, string>)
    requires forall h :: h in role ==> h in hosts
    ensures OnRole(RunAll(StageJobs(cfg, data, task, role), failures).issued, hosts)
  {
    var jobs := StageJobs(cfg, data, task, role);
    if role != [] {
      var init := role[..|role| - 1];
      var last := role[|role| - 1];
      assert jobs[..|jobs| - 1] == StageJobs(cfg, data, task, init);
      RunAllOnRole(cfg, data, task, init, hosts, failures);
      JobOnRole(cfg, data, task, last, hosts);
      PerformIssuesPrefix(jobs[|jobs| - 1], failures);
    }
  }

  lemma ThenOnRole(o1: Outcome, o2: Outcome, hosts: seq<string>)
    requires OnRole(o1.issued, hosts) && OnRole(o2.issued, hosts)
    ensures OnRole(Then(o1, o2).issued, hosts)
  {
    if o1.error.None? {
      var a, b := o1.issued, o2.issued;
      assert forall i :: |a| <= i < |a + b| ==> (a + b)[i] == b[i - |a|];
    }
  }

  lemma OptionalStageOnRole(cfg: Config, data: map<string, string>, task: Task, dest: EnvName, failures: map<Step, string>)
    ensures OnRole(OptionalStage(cfg, data, task, dest, failures).issued, cfg.Role(dest))
  {
    var hosts := cfg.Role(dest);
    RunAllOnRole(cfg, data, task, hosts, hosts, failures);
  }

  /** The host stages only run commands on the hosts of the destination role. */
  lemma StagesOnRole(cfg: Config, data: map<string, string>, dest: EnvName, failures: map<Step, string>)
    ensures OnRole(StagesOutcome(cfg, data, dest, failures).issued, cfg.Role(dest))
  {
    var hosts := cfg.Role(dest);
    var u := Stage(cfg, data, UpdateRemote, dest, failures);
    var p, r := OptionalStage(cfg, data, PostDeploy, dest, failures), OptionalStage(cfg, data, Restart, dest, failures);
    OptionalStageOnRole(cfg, data, UpdateRemote, dest, failures);
    assert OptionalStage(cfg, data, UpdateRemote, dest, failures) == u;
    OptionalStageOnRole(cfg, data, PostDeploy, dest, failures);
    OptionalStageOnRole(cfg, data, Restart, dest, failures);
    ThenOnRole(p, r, hosts);
    ThenOnRole(u, Then(p, r), hosts);
  }

  /** The push step `run` issues. */
  function PushStep(cfg: Config, dest: EnvName, branch: string, destBranch: string): Step
  {
    Exec(Control, Some(cfg.local.root), PushText(dest.Key(), branch, destBranch))
  }

  /** `push_app` is the single action of the push plan, whatever fails. */
  lemma PushAction(cfg: Config, dest: EnvName, branch: string, destBranch: string, failures: map<Step, string>)
    ensures var a := Do(PushStep(cfg, dest, branch, destBranch), RunPolicy(cfg.quietCommands));
      PushPlan(cfg, CmdData(branch, dest.Key(), destBranch)) == [a] &&
      Perform([a], failures) == Effect(a, failures)
  {
    var a := Do(PushStep(cfg, dest, branch, destBranch), RunPolicy(cfg.quietCommands));
    PushRenders(branch, dest.Key(), destBranch);
    assert [a] == [a] + [];
    PerformCons(a, [], failures);
    ThenDone(Effect(a, failures));
  }

  /**
   * Whatever fails, the push is the first step and the only one on the control machine:
   * every later step runs on a host of the destination role.
   */
  lemma PushFirstAndOnce(cfg: Config, dest: EnvName, branch: string, destBranch: string, failures: map<Step, string>)
    ensures var o := DeployOutcome(cfg, CmdData(branch, dest.Key(), destBranch), dest, failures);
      |o.issued| > 0 && o.issued[0] == PushStep(cfg, dest, branch, destBranch) &&
      OnRole(o.issued[1..], cfg.Role(dest))
  {
    var data := CmdData(branch, dest.Key(), destBranch);
    PushAction(cfg, dest, branch, destBranch, failures);
    StagesOnRole(cfg, data, dest, failures);
    var o := DeployOutcome(cfg, data, dest, failures);
    var rest := StagesOutcome(cfg, data, dest, failures).issued;
    assert o.issued == [PushStep(cfg, dest, branch, destBranch)] || o.issued == [PushStep(cfg, dest, branch, destBranch)] + rest;
    assert o.issued[1..] == [] || o.issued[1..] == rest;
  }

  /** A push that aborts ends the deployment: no host is updated. */
  lemma PushAbortStopsDeploy(cfg: Config, dest: EnvName, branch: string, destBranch: string, failures: map<Step, string>)
    requires !cfg.quietCommands && PushStep(cfg, dest, branch, destBranch) in failures
    ensures var s := PushStep(cfg, dest, branch, destBranch);
      DeployOutcome(cfg, CmdData(branch, dest.Key(), destBranch), dest, failures)
        == Outcome([s], [], Some(Aborted(s, failures[s])))
  {
    PushAction(cfg, dest, branch, destBranch, failures);
  }

  /** The jobs of all hosts but the last are the jobs of that shorter role. */
  lemma StageJobsInit(cfg: Config, data: map<string, string>, task: Task, hosts: seq<string>)
    requires hosts != []
    ensures var jobs := StageJobs(cfg, data, task, hosts);
      jobs[..|jobs| - 1] == StageJobs(cfg, data, task, hosts[..|hosts| - 1]) &&
      jobs[|jobs| - 1] == Job(cfg, data, task, hosts[|hosts| - 1])
  {
  }

  /** Whatever fails, the update stage runs the update command once on every host and prints nothing. */
  lemma {:induction false} UpdateRoleIssues(cfg: Config, dest: EnvName, branch: string, destBranch: string, hosts: seq<string>, failures: map<Step, string>)
    ensures var o := RunAll(StageJobs(cfg, CmdData(branch, dest.Key(), destBranch), UpdateRemote, hosts), failures);
      o.issued == RoleSteps(cfg, dest, destBranch, UpdateRemote, hosts) && o.reports == []
  {
    if hosts != [] {
      var data := CmdData(branch, dest.Key(), destBranch);
      var jobs := StageJobs(cfg, data, UpdateRemote, hosts);
      var init, h := hosts[..|hosts| - 1], hosts[|hosts| - 1];
      StageJobsInit(cfg, data, UpdateRemote, hosts);
      var prev, last := RunAll(jobs[..|jobs| - 1], failures), Perform(jobs[|jobs| - 1], failures);
      assert prev.issued == RoleSteps(cfg, dest, destBranch, UpdateRemote, init) && prev.reports == [] by {
        UpdateRoleIssues(cfg, dest, branch, destBranch, init, failures);
      }
      assert last.issued == HostSteps(cfg, dest, destBranch, UpdateRemote, h) && last.reports == [] by {
        UpdateHostIssues(cfg, dest, branch, destBranch, h, failures);
      }
      assert RunAll(jobs, failures) == Join(prev, last);
    }
  }

  /** One host's update: the update command, failing exactly when the oracle fails it and Fabric aborts. */
  lemma UpdateHostIssues(cfg: Config, dest: EnvName, branch: string, destBranch: string, host: string, failures: map<Step, string>)
    ensures var s := Exec(Remote(host), Some(cfg.Env(dest).root), UpdateText(destBranch));
      var o := Perform(UpdateJob(cfg, CmdData(branch, dest.Key(), destBranch), host), failures);
      o.issued == [s] && o.reports == [] && (o.error.Some? <==> s in failures && !cfg.quietCommands)
  {
    var data := CmdData(branch, dest.Key(), destBranch);
    var s := Exec(Remote(host), Some(cfg.Env(dest).root), UpdateText(destBranch));
    var a := Do(s, RunPolicy(cfg.quietCommands));
    assert UpdateJob(cfg, data, host) == [a] + [] by {
      assert DestOf(data) == Success(dest);
      UpdateRenders(branch, dest.Key(), destBranch);
    }
    PerformCons(a, [], failures);
    ThenDone(Effect(a, failures));
  }

  /** The update stage fails exactly when some host's update command fails without `quiet`. */
  lemma UpdateStageFails(cfg: Config, dest: EnvName, branch: string, destBranch: string, failures: map<Step, string>)
    ensures var hosts := cfg.Role(dest);
      (Stage(cfg, CmdData(branch, dest.Key(), destBranch), UpdateRemote, dest, failures).error.Some? <==>
       !cfg.quietCommands &&
       exists i :: 0 <= i < |hosts| && Exec(Remote(hosts[i]), Some(cfg.Env(dest).root), UpdateText(destBranch)) in failures)
  {
    var data := CmdData(branch, dest.Key(), destBranch);
    var hosts := cfg.Role(dest);
    var jobs := StageJobs(cfg, data, UpdateRemote, hosts);
    RunAllFails(jobs, failures);
    forall i | 0 <= i < |hosts|
      ensures Perform(jobs[i], failures).error.Some?
          <==> Exec(Remote(hosts[i]), Some(cfg.Env(dest).root), UpdateText(destBranch)) in failures && !cfg.quietCommands
    {
      UpdateHostIssues(cfg, dest, branch, destBranch, hosts[i], failures);
    }
  }

  /**
   * When the push goes through and the update stage fails, the deployment ends with the
   * stage's error after every host's update: no post-deployment or restart command runs.
   */
  lemma UpdateFailureStopsDeploy(cfg: Config, dest: EnvName, branch: string, destBranch: string, failures: map<Step, string>)
    requires PushStep(cfg, dest, branch, destBranch) !in failures
    requires Stage(cfg, CmdData(branch, dest.Key(), destBranch), UpdateRemote, dest, failures).error.Some?
    ensures var o := DeployOutcome(cfg, CmdData(branch, dest.Key(), destBranch), dest, failures);
      o.issued == [PushStep(cfg, dest, branch, destBranch)] + RoleSteps(cfg, dest, destBranch, UpdateRemote, cfg.Role(dest)) &&
      o.error == Some(HostsFailed("update_remote"))
  {
    PushAction(cfg, dest, branch, destBranch, failures);
    UpdateRoleIssues(cfg, dest, branch, destBranch, cfg.Role(dest), failures);
  }

  /**
   * On a host, a post-deployment template that cannot be interpolated stops that host's job
   * with the error `%` raised; the commands before it have run, and none after it.
   */
  lemma BadTemplateStopsPostDeploy(cfg: Config, dest: EnvName, branch: string, destBranch: string, host: string, j: nat)
    requires j < |cfg.postDeployCommands|
    requires Interpolate(cfg.postDeployCommands[j], EnvFields(cfg.Env(dest))).Failure?
    requires forall k :: 0 <= k < j ==> Interpolate(cfg.postDeployCommands[k], EnvFields(cfg.Env(dest))).Success?
    ensures var fields := EnvFields(cfg.Env(dest));
      var o := Perform(PostDeployJob(cfg, CmdData(branch, dest.Key(), destBranch), host), map[]);
      o.error == Some(BadTemplate(Interpolate(cfg.postDeployCommands[j], fields).error)) &&
      o.issued == seq(j, k requires 0 <= k < j => Exec(Remote(host), Some(cfg.Env(dest).root),
                                                       Interpolate(cfg.postDeployCommands[k], fields).value))
  {
    var data := CmdData(branch, dest.Key(), destBranch);
    var e := cfg.Env(dest);
    var fields := EnvFields(e);
    assert DestOf(data) == Success(dest);
    var plan := PostDeployJob(cfg, data, host);
    var before := plan[..j];
    var policy := RunPolicy(cfg.quietCommands);
    var steps := seq(j, k requires 0 <= k < j => Exec(Remote(host), Some(e.root), Interpolate(cfg.postDeployCommands[k], fields).value));
    assert forall k :: 0 <= k < j ==> before[k] == Do(steps[k], policy);
    PerformNoFailures(before, map[]);
    StepsOfDo(before);
    var stop := Stop(BadTemplate(Interpolate(cfg.postDeployCommands[j], fields).error));
    assert plan[j] == stop;
    assert plan == before + ([stop] + plan[j + 1..]);
    PerformAppend(before, [stop] + plan[j + 1..], map[]);
    PerformCons(stop, plan[j + 1..], map[]);
  }
}
