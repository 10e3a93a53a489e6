/**
 * The class-based database sync task (`DBSync`): dump the source database on the source
 * environment's first host, fetch the dump when the destination is the local machine,
 * load it into the destination database on the destination's first host, then run the
 * migration queries there.
 */
module DbSync {
  import opened Base
  import opened Percent
  import opened Environments
  import opened DbCommands
  import opened Execution

  const LocalSourceMessage := "Using the local database as a source is not currently supported."

  /**
   * The host each stage is `execute`d on: `execute(..., hosts=h)` with the single string
   * `h = hosts[0]` runs on Fabric's merged host list `[h.strip()]`.
   */
  function FirstHost(cfg: Config, name: EnvName): string
    requires |cfg.Env(name).hosts| > 0
  {
    Strip(cfg.Env(name).hosts[0])
  }

  /** The merged host list of `execute(..., hosts=hosts[0])` is exactly the first host. */
  lemma FirstHostExecuted(cfg: Config, name: EnvName)
    requires |cfg.Env(name).hosts| > 0
    ensures ExecuteHosts([cfg.Env(name).hosts[0]]) == [FirstHost(cfg, name)]
  {
    var hs := [cfg.Env(name).hosts[0]];
    assert seq(|hs|, k requires 0 <= k < |hs| => Strip(hs[k])) == [FirstHost(cfg, name)];
    DedupeDistinct([FirstHost(cfg, name)]);
  }

  /** The dump's file name, and its path in the source's archive folder. */
  function DumpNames(cfg: Config, src: EnvName, stamp: string): (string, string)
  {
    var name := DumpName(cfg.projectName, stamp, src);
    (name, DumpPath(cfg.Env(src).archive, name))
  }

  function DumpAction(cfg: Config, src: EnvName, fullName: string): Action
    requires |cfg.Env(src).hosts| > 0
  {
    Do(Exec(Remote(FirstHost(cfg, src)), None, DumpCommand(cfg.Env(src).db, fullName)), RunPolicy(cfg.quietCommands))
  }

  function FetchStep(cfg: Config, src: EnvName, fullName: string): Step
    requires |cfg.Env(src).hosts| > 0
  {
    Fetch(FirstHost(cfg, src), fullName, cfg.local.archive)
  }

  function InsertAction(cfg: Config, dest: EnvName, file: string): Action
    requires |cfg.Env(dest).hosts| > 0
  {
    Do(Exec(Remote(FirstHost(cfg, dest)), None, InsertCommand(cfg.Env(dest).db, file)), RunPolicy(cfg.quietCommands))
  }

  /** `migrate(dest)`, executed on the destination's first host. */
  function MigratePlan(cfg: Config, dest: EnvName): seq<Action>
    requires |cfg.Env(dest).hosts| > 0
  {
    MigrationPlan(cfg, cfg.Env(dest), FirstHost(cfg, dest))
  }

  /** Insert, then migrate; the destination's first host is looked up first. */
  function LoadOutcome(cfg: Config, dest: EnvName, file: string, failures: map<Step, string>): Outcome
  {
    if |cfg.Env(dest).hosts| == 0 then Outcome([], [], Some(IndexOutOfRange))
    else Then(Effect(InsertAction(cfg, dest, file), failures), Perform(MigratePlan(cfg, dest), failures))
  }

  /** After the dump: fetch it when the destination is local, then load it. */
  function TransferOutcome(cfg: Config, src: EnvName, dest: EnvName, name: string, fullName: string,
                           failures: map<Step, string>, localCopy: Step -> string): Outcome
    requires |cfg.Env(src).hosts| > 0
  {
    if dest == Local then
      var f := FetchStep(cfg, src, fullName);
      var paths := Fetched(failures, localCopy, f);
      if paths == [] then Outcome([f], [], Some(IndexOutOfRange))
      else Then(Outcome([f], [], None), LoadOutcome(cfg, dest, paths[0], failures))
    else LoadOutcome(cfg, dest, name, failures)
  }

  /** The reference meaning of `DBSync.run(src, dest)`. */
  function RunOutcome(cfg: Config, src: EnvName, dest: EnvName, stamp: string,
                      failures: map<Step, string>, localCopy: Step -> string): Outcome
  {
    if src == Local then Outcome([], [], Some(Raised("ValueError", LocalSourceMessage)))
    else if |cfg.Env(src).hosts| == 0 then Outcome([], [], Some(IndexOutOfRange))
    else
      var (name, fullName) := DumpNames(cfg, src, stamp);
      Then(Effect(DumpAction(cfg, src, fullName), failures), TransferOutcome(cfg, src, dest, name, fullName, failures, localCopy))
  }

  // ---------------------------------------------------------------------------------------------
  // The task's methods

  /** `dump(src)`: returns the dump's name and full path. */
  method Dump(ex: Executor, cfg: Config, src: EnvName, stamp: string)
    returns (name: string, fullName: string, err: Option<Error>)
    requires |cfg.Env(src).hosts| > 0
    modifies ex
    ensures (name, fullName) == DumpNames(cfg, src, stamp)
    ensures ex.Extended(Effect(DumpAction(cfg, src, fullName), ex.failures))
    ensures err == Effect(DumpAction(cfg, src, fullName), ex.failures).error
  {
    var e := cfg.Env(src);
    name := DumpName(cfg.projectName, stamp, src);
    fullName := DumpPath(e.archive, name);
    err := Attempt(ex, Remote(FirstHost(cfg, src)), None, DumpCommand(e.db, fullName), RunPolicy(cfg.quietCommands));
  }

  /** `fetch(fn)`: the local paths `get` reports. */
  method FetchDump(ex: Executor, cfg: Config, src: EnvName, fullName: string) returns (paths: seq<string>)
    requires |cfg.Env(src).hosts| > 0
    modifies ex
    ensures ex.Extended(Outcome([FetchStep(cfg, src, fullName)], [], None))
    ensures paths == Fetched(ex.failures, ex.localCopy, FetchStep(cfg, src, fullName))
  {
    paths := ex.Get(FirstHost(cfg, src), fullName, cfg.local.archive);
  }

  /** `insert_db(dest, file)`. */
  method InsertDb(ex: Executor, cfg: Config, dest: EnvName, file: string) returns (err: Option<Error>)
    requires |cfg.Env(dest).hosts| > 0
    modifies ex
    ensures ex.Extended(Effect(InsertAction(cfg, dest, file), ex.failures))
    ensures err == Effect(InsertAction(cfg, dest, file), ex.failures).error
  {
    var e := cfg.Env(dest);
    err := Attempt(ex, Remote(FirstHost(cfg, dest)), None, InsertCommand(e.db, file), RunPolicy(cfg.quietCommands));
  }

  /** `migrate(dest)`. */
  method Migrate(ex: Executor, cfg: Config, dest: EnvName) returns (err: Option<Error>)
    requires |cfg.Env(dest).hosts| > 0
    modifies ex
    ensures ex.Extended(Perform(MigratePlan(cfg, dest), ex.failures))
    ensures err == Perform(MigratePlan(cfg, dest), ex.failures).error
  {
    err := RunMigration(ex, cfg, cfg.Env(dest), FirstHost(cfg, dest));
  }

  /** Insert and migrate on the destination. */
  method Load(ex: Executor, cfg: Config, dest: EnvName, file: string) returns (err: Option<Error>)
    modifies ex
    ensures ex.Extended(LoadOutcome(cfg, dest, file, ex.failures))
    ensures err == LoadOutcome(cfg, dest, file, ex.failures).error
  {
    if |cfg.Env(dest).hosts| == 0 {
      assert ex.trace == old(ex.trace) + [] && ex.reports == old(ex.reports) + [];
      return Some(IndexOutOfRange);
    }
    err := InsertDb(ex, cfg, dest, file);
    ghost var o1 := Effect(InsertAction(cfg, dest, file), ex.failures);
    if err.Some? {
      return;
    }
    err := Migrate(ex, cfg, dest);
    ghost var o2 := Perform(MigratePlan(cfg, dest), ex.failures);
    AppendAssoc(old(ex.trace), o1.issued, o2.issued);
    AppendAssoc(old(ex.reports), o1.reports, o2.reports);
  }

  /** The part of `run` after the dump: fetch when the destination is local, then load. */
  method Transfer(ex: Executor, cfg: Config, src: EnvName, dest: EnvName, name: string, fullName: string)
    returns (err: Option<Error>)
    requires |cfg.Env(src).hosts| > 0
    modifies ex
    ensures ex.Extended(TransferOutcome(cfg, src, dest, name, fullName, ex.failures, ex.localCopy))
    ensures err == TransferOutcome(cfg, src, dest, name, fullName, ex.failures, ex.localCopy).error
  {
    if dest == Local {
      var paths := FetchDump(ex, cfg, src, fullName);
      ghost var f := FetchStep(cfg, src, fullName);
      assert ex.trace == old(ex.trace) + [f] && ex.reports == old(ex.reports) + [];
      if paths == [] {
        return Some(IndexOutOfRange);
      }
      ghost var t1, r1 := ex.trace, ex.reports;
      err := Load(ex, cfg, dest, paths[0]);
      ghost var o := LoadOutcome(cfg, dest, paths[0], ex.failures);
      assert ex.trace == t1 + o.issued && ex.reports == r1 + o.reports;
      AppendAssoc(old(ex.trace), [f], o.issued);
      AppendAssoc(old(ex.reports), [], o.reports);
    } else {
      err := Load(ex, cfg, dest, name);
    }
  }

  /** `DBSync.run(src, dest)`. */
  method Run(ex: Executor, cfg: Config, src: EnvName, dest: EnvName, stamp: string) returns (err: Option<Error>)
    modifies ex
    ensures ex.Extended(RunOutcome(cfg, src, dest, stamp, ex.failures, ex.localCopy))
    ensures err == RunOutcome(cfg, src, dest, stamp, ex.failures, ex.localCopy).error
  {
    if src == Local {
      assert ex.trace == old(ex.trace) + [] && ex.reports == old(ex.reports) + [];
      return Some(Raised("ValueError", LocalSourceMessage));
    }
    if |cfg.Env(src).hosts| == 0 {
      assert ex.trace == old(ex.trace) + [] && ex.reports == old(ex.reports) + [];
      return Some(IndexOutOfRange);
    }
    var name, fullName, e := Dump(ex, cfg, src, stamp);
    if e.Some? {
      return e;
    }
    ghost var o1 := Effect(DumpAction(cfg, src, fullName), ex.failures);
    ghost var t1, r1 := ex.trace, ex.reports;
    err := Transfer(ex, cfg, src, dest, name, fullName);
    ghost var o2 := TransferOutcome(cfg, src, dest, name, fullName, ex.failures, ex.localCopy);
    AppendAssoc(old(ex.trace), o1.issued, o2.issued);
    AppendAssoc(old(ex.reports), o1.reports, o2.reports);
  }

  // ---------------------------------------------------------------------------------------------
  // Properties

  /** The insert, then the migration queries. */
  function LoadSteps(cfg: Config, dest: EnvName, file: string): seq<Step>
    requires |cfg.Env(dest).hosts| > 0
  {
    [InsertAction(cfg, dest, file).step] + StepsOf(MigratePlan(cfg, dest))
  }

  /** The fetch, for a local destination only, then the load of the fetched copy or of the bare name. */
  function TransferSteps(cfg: Config, src: EnvName, dest: EnvName, name: string, fullName: string,
                         localCopy: Step -> string): seq<Step>
    requires |cfg.Env(src).hosts| > 0 && |cfg.Env(dest).hosts| > 0
  {
    var f := FetchStep(cfg, src, fullName);
    if dest == Local then [f] + LoadSteps(cfg, dest, localCopy(f)) else LoadSteps(cfg, dest, name)
  }

  /** Everything a sync of a remote source would issue when nothing goes wrong, in order. */
  function FullSteps(cfg: Config, src: EnvName, dest: EnvName, stamp: string, localCopy: Step -> string): seq<Step>
    requires src != Local && |cfg.Env(src).hosts| > 0 && |cfg.Env(dest).hosts| > 0
  {
    var (name, fullName) := DumpNames(cfg, src, stamp);
    [DumpAction(cfg, src, fullName).step] + TransferSteps(cfg, src, dest, name, fullName, localCopy)
  }

  lemma LoadIssuesPrefix(cfg: Config, dest: EnvName, file: string, failures: map<Step, string>)
    requires |cfg.Env(dest).hosts| > 0
    ensures LoadOutcome(cfg, dest, file, failures).issued <= LoadSteps(cfg, dest, file)
  {
    var ins := InsertAction(cfg, dest, file);
    var mig := MigratePlan(cfg, dest);
    PerformIssuesPrefix(mig, failures);
    ThenPrefix(Effect(ins, failures), Perform(mig, failures), [ins.step], StepsOf(mig));
  }

  lemma TransferIssuesPrefix(cfg: Config, src: EnvName, dest: EnvName, name: string, fullName: string,
                             failures: map<Step, string>, localCopy: Step -> string)
    requires |cfg.Env(src).hosts| > 0 && |cfg.Env(dest).hosts| > 0
    ensures TransferOutcome(cfg, src, dest, name, fullName, failures, localCopy).issued
         <= TransferSteps(cfg, src, dest, name, fullName, localCopy)
  {
    var f := FetchStep(cfg, src, fullName);
    if dest == Local {
      var load := LoadOutcome(cfg, dest, localCopy(f), failures);
      LoadIssuesPrefix(cfg, dest, localCopy(f), failures);
      if f !in failures {
        ThenPrefix(Outcome([f], [], None), load, [f], LoadSteps(cfg, dest, localCopy(f)));
      }
    } else {
      LoadIssuesPrefix(cfg, dest, name, failures);
    }
  }

  /** A local source is refused before anything is issued. */
  lemma LocalSourceRefused(cfg: Config, dest: EnvName, stamp: string, failures: map<Step, string>, localCopy: Step -> string)
    ensures RunOutcome(cfg, Local, dest, stamp, failures, localCopy).issued == []
    ensures RunOutcome(cfg, Local, dest, stamp, failures, localCopy).error == Some(Raised("ValueError", LocalSourceMessage))
  {
  }

  /**
   * Whatever fails, a sync issues a prefix of the full sequence: the dump, then the fetch
   * only for a local destination, then the insert, then the migration queries.
   */
  lemma RunIssuesPrefix(cfg: Config, src: EnvName, dest: EnvName, stamp: string,
                        failures: map<Step, string>, localCopy: Step -> string)
    requires src != Local && |cfg.Env(src).hosts| > 0 && |cfg.Env(dest).hosts| > 0
    ensures RunOutcome(cfg, src, dest, stamp, failures, localCopy).issued <= FullSteps(cfg, src, dest, stamp, localCopy)
  {
    var (name, fullName) := DumpNames(cfg, src, stamp);
    TransferIssuesPrefix(cfg, src, dest, name, fullName, failures, localCopy);
    ThenPrefix(Effect(DumpAction(cfg, src, fullName), failures),
               TransferOutcome(cfg, src, dest, name, fullName, failures, localCopy),
               [DumpAction(cfg, src, fullName).step], TransferSteps(cfg, src, dest, name, fullName, localCopy));
  }

  /** When no step fails and the templates interpolate, the whole sequence is issued and the sync succeeds. */
  lemma RunCompletes(cfg: Config, src: EnvName, dest: EnvName, stamp: string, localCopy: Step -> string)
    requires src != Local && |cfg.Env(src).hosts| > 0 && |cfg.Env(dest).hosts| > 0
    requires MakeUpdateSql(cfg.migrationCommands, MigrationFields(cfg, cfg.Env(dest))).Success?
    ensures RunOutcome(cfg, src, dest, stamp, map[], localCopy).issued == FullSteps(cfg, src, dest, stamp, localCopy)
    ensures RunOutcome(cfg, src, dest, stamp, map[], localCopy).error.None?
  {
    MigrationCompletes(cfg, cfg.Env(dest), FirstHost(cfg, dest));
  }
}
