/**
 * The tasks of the single-file fabfile, the older generation of the tool.  Every
 * task that talks to a host first points Fabric at the environment's `hostname`
 * entry (the `_host` context manager), rather than at the first host of the role.
 */
module Fabfile {
  import opened Base
  import opened Environments
  import opened Execution
  import opened DbCommands
  import DbSync
  import FileSync
  import opened Provisioning

  /** The host `_host(name)` sets as Fabric's current host. */
  function HostOf(cfg: Config, name: EnvName): string
  {
    cfg.Env(name).hostname
  }

  // ---------------------------------------------------------------------------------------------
  // `test(env_name)`

  function TestAction(cfg: Config, name: EnvName): Action
  {
    Do(Exec(Remote(HostOf(cfg, name)), None, "uname -a"), Abort)
  }

  method Test(ex: Executor, cfg: Config, name: EnvName) returns (err: Option<Error>)
    modifies ex
    ensures ex.Extended(Effect(TestAction(cfg, name), ex.failures))
    ensures err == Effect(TestAction(cfg, name), ex.failures).error
  {
    err := Attempt(ex, Remote(cfg.Env(name).hostname), None, "uname -a", Abort);
  }

  /** `test` issues `uname -a` on the environment's host alone, and a failure aborts the task. */
  lemma TestIssuesUname(cfg: Config, name: EnvName, failures: map<Step, string>)
    ensures var s := Exec(Remote(cfg.Env(name).hostname), None, "uname -a");
      Effect(TestAction(cfg, name), failures)
        == Outcome([s], [], if s in failures then Some(Aborted(s, failures[s])) else None)
  {
  }

  // ---------------------------------------------------------------------------------------------
  // `dump(src, fetch_dump)` and `_fetch(host, fn)`

  /** `archive/PROJECT-STAMP.src.sql.gz`, in the source's archive folder. */
  function LegacyDumpPath(cfg: Config, src: EnvName, stamp: string): string
  {
    DumpPath(cfg.Env(src).archive, DumpName(cfg.projectName, stamp, src))
  }

  function LegacyDumpAction(cfg: Config, src: EnvName, path: string): Action
  {
    Do(Exec(Remote(HostOf(cfg, src)), None, DumpCommand(cfg.Env(src).db, path)), RunPolicy(cfg.quietCommands))
  }

  /** `get(fn, env['local']['archive'])` from the environment's host. */
  function LegacyFetchStep(cfg: Config, name: EnvName, path: string): Step
  {
    Fetch(HostOf(cfg, name), path, cfg.local.archive)
  }

  /**
   * The dump, then the download of a remote dump when asked for; the download runs
   * inside `quiet()`, so its failure is ignored and its result is dropped.
   */
  function DumpOutcome(cfg: Config, src: EnvName, fetchDump: bool, stamp: string, failures: map<Step, string>): Outcome
  {
    var path := LegacyDumpPath(cfg, src, stamp);
    Then(Effect(LegacyDumpAction(cfg, src, path), failures),
         if fetchDump && src != Local then Outcome([LegacyFetchStep(cfg, src, path)], [], None) else Done)
  }

  method FetchFile(ex: Executor, cfg: Config, name: EnvName, path: string) returns (paths: seq<string>)
    modifies ex
    ensures ex.Extended(Outcome([LegacyFetchStep(cfg, name, path)], [], None))
    ensures paths == Fetched(ex.failures, ex.localCopy, LegacyFetchStep(cfg, name, path))
  {
    paths := ex.Get(cfg.Env(name).hostname, path, cfg.local.archive);
  }

  method Dump(ex: Executor, cfg: Config, src: EnvName, fetchDump: bool, stamp: string) returns (path: string, err: Option<Error>)
    modifies ex
    ensures path == LegacyDumpPath(cfg, src, stamp)
    ensures ex.Extended(DumpOutcome(cfg, src, fetchDump, stamp, ex.failures))
    ensures err == DumpOutcome(cfg, src, fetchDump, stamp, ex.failures).error
  {
    var e := cfg.Env(src);
    path := DumpPath(e.archive, DumpName(cfg.projectName, stamp, src));
    err := Attempt(ex, Remote(e.hostname), None, DumpCommand(e.db, path), RunPolicy(cfg.quietCommands));
    ghost var o1 := Effect(LegacyDumpAction(cfg, src, path), ex.failures);
    ThenDone(o1);
    if err.None? && fetchDump && src != Local {
      var _ := FetchFile(ex, cfg, src, path);
      AppendAssoc(old(ex.trace), o1.issued, [LegacyFetchStep(cfg, src, path)]);
      AppendAssoc(old(ex.reports), o1.reports, []);
    }
  }

  /**
   * A dump that does not fail issues the mysqldump on the source's host, then a download
   * exactly when one is asked for and the source is remote.
   */
  lemma DumpSteps(cfg: Config, src: EnvName, fetchDump: bool, stamp: string, failures: map<Step, string>)
    requires LegacyDumpAction(cfg, src, LegacyDumpPath(cfg, src, stamp)).step !in failures
    ensures var path := DumpPath(cfg.Env(src).archive, cfg.projectName + "-" + stamp + "." + src.Key() + ".sql.gz");
      DumpOutcome(cfg, src, fetchDump, stamp, failures)
        == Outcome([Exec(Remote(cfg.Env(src).hostname), None, DumpCommand(cfg.Env(src).db, path))]
                     + (if fetchDump && src != Local then [Fetch(cfg.Env(src).hostname, path, cfg.local.archive)] else []),
                   [], None)
  {
    var o1 := Effect(LegacyDumpAction(cfg, src, LegacyDumpPath(cfg, src, stamp)), failures);
    ThenDone(o1);
  }

  /**
   * The `fetch_dump` flag as `fab dump:SRC,ARG` passes it: Fabric hands task arguments over
   * as strings, and `if fetch_dump` tests a string's truth, which holds when it is non-empty.
   */
  function ArgFlag(arg: string): bool
  {
    arg != ""
  }

  /** The flag the task's documentation describes: `fab dump:dev,False` asks for no download. */
  function IntendedArgFlag(arg: string): bool
  {
    arg != "" && arg != "False"
  }

  /**
   * As written, a remote dump is downloaded for every non-empty argument, so
   * `fab dump:dev,False` downloads it, against the task's documentation.
   */
  lemma DumpArgAsWritten(cfg: Config, src: EnvName, arg: string, stamp: string, failures: map<Step, string>)
    requires DumpStepOf(cfg, src, stamp) !in failures
    ensures var fetch := LegacyFetchStep(cfg, src, LegacyDumpPath(cfg, src, stamp));
      fetch in DumpOutcome(cfg, src, ArgFlag(arg), stamp, failures).issued <==> src != Local && arg != ""
    ensures src != Local ==>
      DumpOutcome(cfg, src, ArgFlag("False"), stamp, failures).issued
        == [DumpStepOf(cfg, src, stamp), LegacyFetchStep(cfg, src, LegacyDumpPath(cfg, src, stamp))]
  {
  }

  /** With the documented reading, `False` keeps the dump on the server; any other argument downloads a remote dump. */
  lemma DumpArgIntended(cfg: Config, src: EnvName, arg: string, stamp: string, failures: map<Step, string>)
    requires DumpStepOf(cfg, src, stamp) !in failures
    ensures var fetch := LegacyFetchStep(cfg, src, LegacyDumpPath(cfg, src, stamp));
      var issued := DumpOutcome(cfg, src, IntendedArgFlag(arg), stamp, failures).issued;
      fetch in issued <==> src != Local && arg != "" && arg != "False"
    ensures DumpOutcome(cfg, src, IntendedArgFlag("False"), stamp, failures).issued == [DumpStepOf(cfg, src, stamp)]
  {
  }

  // ---------------------------------------------------------------------------------------------
  // `_migrate(dest)`

  /** `_make_update_sql` and the query loop, on the destination's host. */
  function LegacyMigratePlan(cfg: Config, dest: EnvName): seq<Action>
  {
    MigrationPlan(cfg, cfg.Env(dest), HostOf(cfg, dest))
  }

  method Migrate(ex: Executor, cfg: Config, dest: EnvName) returns (err: Option<Error>)
    modifies ex
    ensures ex.Extended(Perform(LegacyMigratePlan(cfg, dest), ex.failures))
    ensures err == Perform(LegacyMigratePlan(cfg, dest), ex.failures).error
  {
    err := RunMigration(ex, cfg, cfg.Env(dest), cfg.Env(dest).hostname);
  }

  // ---------------------------------------------------------------------------------------------
  // `sync_db(src, dest)` as written

  /**
   * What Fabric's `run` raises when handed the insert lambda instead of a command
   * string: prefixing it with the directory and command prefixes concatenates a `str`
   * and a `function`.
   */
  const InsertTypeError := Raised("TypeError", "cannot concatenate 'str' and 'function' objects")

  /**
   * After the dump, as the code is written: a local destination fetches the dump, then
   * only calls the lambda, which builds the insert command without issuing it; a remote
   * destination passes the lambda itself to `run`.
   */
  function AfterDumpAsWritten(cfg: Config, src: EnvName, dest: EnvName, path: string,
                              failures: map<Step, string>): Outcome
  {
    if dest == Local then
      var f := LegacyFetchStep(cfg, src, path);
      if f in failures then Outcome([f], [], Some(IndexOutOfRange))
      else Then(Outcome([f], [], None), Perform(LegacyMigratePlan(cfg, dest), failures))
    else Outcome([], [], Some(InsertTypeError))
  }

  function SyncDbOutcome(cfg: Config, src: EnvName, dest: EnvName, stamp: string, failures: map<Step, string>): Outcome
  {
    if src == Local then Outcome([], [DbSync.LocalSourceMessage], None)
    else Then(DumpOutcome(cfg, src, false, stamp, failures),
              AfterDumpAsWritten(cfg, src, dest, LegacyDumpPath(cfg, src, stamp), failures))
  }

  method InsertAsWritten(ex: Executor, cfg: Config, src: EnvName, dest: EnvName, path: string) returns (err: Option<Error>)
    modifies ex
    ensures ex.Extended(AfterDumpAsWritten(cfg, src, dest, path, ex.failures))
    ensures err == AfterDumpAsWritten(cfg, src, dest, path, ex.failures).error
  {
    if dest == Local {
      var fetched := FetchFile(ex, cfg, src, path);
      if fetched == [] {
        return Some(IndexOutOfRange);
      }
      // the lambda is called for its value only: nothing is issued
      err := Migrate(ex, cfg, dest);
      ghost var o2 := Perform(LegacyMigratePlan(cfg, dest), ex.failures);
      AppendAssoc(old(ex.trace), [LegacyFetchStep(cfg, src, path)], o2.issued);
      AppendAssoc(old(ex.reports), [], o2.reports);
    } else {
      err := Some(InsertTypeError);
      assert ex.trace == old(ex.trace) + [] && ex.reports == old(ex.reports) + [];
    }
  }

  method SyncDb(ex: Executor, cfg: Config, src: EnvName, dest: EnvName, stamp: string) returns (err: Option<Error>)
    modifies ex
    ensures ex.Extended(SyncDbOutcome(cfg, src, dest, stamp, ex.failures))
    ensures err == SyncDbOutcome(cfg, src, dest, stamp, ex.failures).error
  {
    if src == Local {
      ex.Report(DbSync.LocalSourceMessage);
      return None;
    }
    var path, e := Dump(ex, cfg, src, false, stamp);
    ghost var o1 := DumpOutcome(cfg, src, false, stamp, ex.failures);
    if e.Some? {
      return e;
    }
    err := InsertAsWritten(ex, cfg, src, dest, path);
    ghost var o2 := AfterDumpAsWritten(cfg, src, dest, path, ex.failures);
    AppendAssoc(old(ex.trace), o1.issued, o2.issued);
    AppendAssoc(old(ex.reports), o1.reports, o2.reports);
  }

  // ---------------------------------------------------------------------------------------------
  // `sync_db(src, dest)` as intended

  /** The insert the lambda describes: `local()` for the local machine, `run()` on a remote host. */
  function IntendedInsertAction(cfg: Config, dest: EnvName, file: string): Action
  {
    var target := if dest == Local then Control else Remote(HostOf(cfg, dest));
    Do(Exec(target, None, InsertCommand(cfg.Env(dest).db, file)), RunPolicy(cfg.quietCommands))
  }

  function IntendedLoad(cfg: Config, dest: EnvName, file: string, failures: map<Step, string>): Outcome
  {
    Then(Effect(IntendedInsertAction(cfg, dest, file), failures), Perform(LegacyMigratePlan(cfg, dest), failures))
  }

  /** After the dump, as intended: the fetched copy or the remote dump is inserted, then migrated. */
  function AfterDumpIntended(cfg: Config, src: EnvName, dest: EnvName, path: string,
                             failures: map<Step, string>, localCopy: Step -> string): Outcome
  {
    if dest == Local then
      var f := LegacyFetchStep(cfg, src, path);
      if f in failures then Outcome([f], [], Some(IndexOutOfRange))
      else Then(Outcome([f], [], None), IntendedLoad(cfg, dest, localCopy(f), failures))
    else IntendedLoad(cfg, dest, path, failures)
  }

  function SyncDbIntendedOutcome(cfg: Config, src: EnvName, dest: EnvName, stamp: string,
                                 failures: map<Step, string>, localCopy: Step -> string): Outcome
  {
    if src == Local then Outcome([], [DbSync.LocalSourceMessage], None)
    else Then(DumpOutcome(cfg, src, false, stamp, failures),
              AfterDumpIntended(cfg, src, dest, LegacyDumpPath(cfg, src, stamp), failures, localCopy))
  }

  method Load(ex: Executor, cfg: Config, dest: EnvName, file: string) returns (err: Option<Error>)
    modifies ex
    ensures ex.Extended(IntendedLoad(cfg, dest, file, ex.failures))
    ensures err == IntendedLoad(cfg, dest, file, ex.failures).error
  {
    var target := if dest == Local then Control else Remote(cfg.Env(dest).hostname);
    err := Attempt(ex, target, None, InsertCommand(cfg.Env(dest).db, file), RunPolicy(cfg.quietCommands));
    ghost var o1 := Effect(IntendedInsertAction(cfg, dest, file), ex.failures);
    if err.Some? {
      return;
    }
    err := Migrate(ex, cfg, dest);
    ghost var o2 := Perform(LegacyMigratePlan(cfg, dest), ex.failures);
    AppendAssoc(old(ex.trace), o1.issued, o2.issued);
    AppendAssoc(old(ex.reports), o1.reports, o2.reports);
  }

  method InsertIntended(ex: Executor, cfg: Config, src: EnvName, dest: EnvName, path: string) returns (err: Option<Error>)
    modifies ex
    ensures ex.Extended(AfterDumpIntended(cfg, src, dest, path, ex.failures, ex.localCopy))
    ensures err == AfterDumpIntended(cfg, src, dest, path, ex.failures, ex.localCopy).error
  {
    if dest == Local {
      var fetched := FetchFile(ex, cfg, src, path);
      if fetched == [] {
        return Some(IndexOutOfRange);
      }
      err := Load(ex, cfg, dest, fetched[0]);
      ghost var o2 := IntendedLoad(cfg, dest, fetched[0], ex.failures);
      AppendAssoc(old(ex.trace), [LegacyFetchStep(cfg, src, path)], o2.issued);
      AppendAssoc(old(ex.reports), [], o2.reports);
    } else {
      err := Load(ex, cfg, dest, path);
    }
  }

  method SyncDbIntended(ex: Executor, cfg: Config, src: EnvName, dest: EnvName, stamp: string) returns (err: Option<Error>)
    modifies ex
    ensures ex.Extended(SyncDbIntendedOutcome(cfg, src, dest, stamp, ex.failures, ex.localCopy))
    ensures err == SyncDbIntendedOutcome(cfg, src, dest, stamp, ex.failures, ex.localCopy).error
  {
    if src == Local {
      ex.Report(DbSync.LocalSourceMessage);
      return None;
    }
    var path, e := Dump(ex, cfg, src, false, stamp);
    ghost var o1 := DumpOutcome(cfg, src, false, stamp, ex.failures);
    if e.Some? {
      return e;
    }
    err := InsertIntended(ex, cfg, src, dest, path);
    ghost var o2 := AfterDumpIntended(cfg, src, dest, path, ex.failures, ex.localCopy);
    AppendAssoc(old(ex.trace), o1.issued, o2.issued);
    AppendAssoc(old(ex.reports), o1.reports, o2.reports);
  }

  // ---------------------------------------------------------------------------------------------
  // Properties of `sync_db`

  /** The dump and, for a local destination, the download of the dump. */
  function DumpStepOf(cfg: Config, src: EnvName, stamp: string): Step
  {
    LegacyDumpAction(cfg, src, LegacyDumpPath(cfg, src, stamp)).step
  }

  /** A local source is refused with a printed message, and nothing is issued, in both versions. */
  lemma LocalSourceReported(cfg: Config, dest: EnvName, stamp: string, failures: map<Step, string>, localCopy: Step -> string)
    ensures SyncDbOutcome(cfg, Local, dest, stamp, failures) == Outcome([], [DbSync.LocalSourceMessage], None)
    ensures SyncDbIntendedOutcome(cfg, Local, dest, stamp, failures, localCopy) == Outcome([], [DbSync.LocalSourceMessage], None)
  {
  }

  /**
   * As written, a sync into the local machine downloads the dump and runs the migration
   * queries, but never issues the insert in between.
   */
  lemma LocalInsertNeverIssued(cfg: Config, src: EnvName, stamp: string)
    requires src != Local
    requires MakeUpdateSql(cfg.migrationCommands, MigrationFields(cfg, cfg.local)).Success?
    ensures var path := LegacyDumpPath(cfg, src, stamp);
      SyncDbOutcome(cfg, src, Local, stamp, map[])
        == Outcome([DumpStepOf(cfg, src, stamp), LegacyFetchStep(cfg, src, path)] + StepsOf(LegacyMigratePlan(cfg, Local)), [], None)
  {
    var path := LegacyDumpPath(cfg, src, stamp);
    var dump, f := DumpStepOf(cfg, src, stamp), LegacyFetchStep(cfg, src, path);
    var steps := StepsOf(LegacyMigratePlan(cfg, Local));
    DumpSucceeds(cfg, src, stamp);
    LocalAfterDumpAsWritten(cfg, src, path);
    CleanThen([dump], [f] + steps, DumpOutcome(cfg, src, false, stamp, map[]), AfterDumpAsWritten(cfg, src, Local, path, map[]));
    assert [dump] + ([f] + steps) == [dump, f] + steps by {
      AppendAssoc([dump], [f], steps);
      assert [dump] + [f] == [dump, f];
    }
  }

  /** As written, with nothing failing, a local destination gets the download and then the migration queries. */
  lemma LocalAfterDumpAsWritten(cfg: Config, src: EnvName, path: string)
    requires MakeUpdateSql(cfg.migrationCommands, MigrationFields(cfg, cfg.local)).Success?
    ensures AfterDumpAsWritten(cfg, src, Local, path, map[])
      == Outcome([LegacyFetchStep(cfg, src, path)] + StepsOf(LegacyMigratePlan(cfg, Local)), [], None)
  {
    var f := LegacyFetchStep(cfg, src, path);
    MigrationCompletes(cfg, cfg.local, cfg.local.hostname);
    NoMigrationReports(cfg, Local, map[]);
    CleanThen([f], StepsOf(LegacyMigratePlan(cfg, Local)), Outcome([f], [], None), Perform(LegacyMigratePlan(cfg, Local), map[]));
  }

  /** Migration queries print nothing: their failures abort or are ignored. */
  lemma NoMigrationReports(cfg: Config, dest: EnvName, failures: map<Step, string>)
    ensures Perform(LegacyMigratePlan(cfg, dest), failures).reports == []
  {
    var e := cfg.Env(dest);
    match MakeUpdateSql(cfg.migrationCommands, MigrationFields(cfg, e))
    case Failure(err) =>
      assert [Stop(BadTemplate(err))][1..] == [];
    case Success(qs) =>
      PolicyCommandsSilent(Remote(HostOf(cfg, dest)), QueryCommands(e.db, qs), RunPolicy(cfg.quietCommands), failures);
  }

  /** A command loop under Fabric's own policies prints no report. */
  lemma {:induction false} PolicyCommandsSilent(target: Target, texts: seq<string>, policy: Policy, failures: map<Step, string>)
    requires policy.Abort? || policy.Warn?
    ensures Perform(Commands(target, None, texts, policy), failures).reports == []
  {
    if texts != [] {
      var p := Commands(target, None, texts, policy);
      assert p[1..] == Commands(target, None, texts[1..], policy);
      PolicyCommandsSilent(target, texts[1..], policy, failures);
    }
  }

  /**
   * As written, a sync into a remote environment stops with a TypeError right after the
   * dump: neither the insert nor any migration query is issued.
   */
  lemma RemoteInsertRaises(cfg: Config, src: EnvName, dest: EnvName, stamp: string, failures: map<Step, string>)
    requires src != Local && dest != Local
    requires DumpStepOf(cfg, src, stamp) !in failures
    ensures SyncDbOutcome(cfg, src, dest, stamp, failures) == Outcome([DumpStepOf(cfg, src, stamp)], [], Some(InsertTypeError))
  {
    ThenDone(Effect(LegacyDumpAction(cfg, src, LegacyDumpPath(cfg, src, stamp)), failures));
  }

  /**
   * As intended, a sync with nothing failing issues the dump, the download when the
   * destination is local, the insert of the downloaded copy (or of the remote dump) on
   * the destination, then the migration queries.
   */
  lemma IntendedSyncCompletes(cfg: Config, src: EnvName, dest: EnvName, stamp: string, localCopy: Step -> string)
    requires src != Local
    requires MakeUpdateSql(cfg.migrationCommands, MigrationFields(cfg, cfg.Env(dest))).Success?
    ensures var path := LegacyDumpPath(cfg, src, stamp);
      var f := LegacyFetchStep(cfg, src, path);
      var file := if dest == Local then localCopy(f) else path;
      SyncDbIntendedOutcome(cfg, src, dest, stamp, map[], localCopy)
        == Outcome([DumpStepOf(cfg, src, stamp)] + (if dest == Local then [f] else [])
                     + [IntendedInsertAction(cfg, dest, file).step] + StepsOf(LegacyMigratePlan(cfg, dest)), [], None)
  {
    var path := LegacyDumpPath(cfg, src, stamp);
    var f := LegacyFetchStep(cfg, src, path);
    var file := if dest == Local then localCopy(f) else path;
    var fetched: seq<Step> := if dest == Local then [f] else [];
    var load := [IntendedInsertAction(cfg, dest, file).step] + StepsOf(LegacyMigratePlan(cfg, dest));
    var dump := DumpStepOf(cfg, src, stamp);
    DumpSucceeds(cfg, src, stamp);
    AfterDumpIntendedCompletes(cfg, src, dest, path, localCopy);
    CleanThen([dump], fetched + load, DumpOutcome(cfg, src, false, stamp, map[]), AfterDumpIntended(cfg, src, dest, path, map[], localCopy));
    AppendAssoc([dump], fetched, load);
    AppendAssoc([dump] + fetched, [IntendedInsertAction(cfg, dest, file).step], StepsOf(LegacyMigratePlan(cfg, dest)));
  }

  /** With nothing failing and no download asked for, the dump is the only step. */
  lemma DumpSucceeds(cfg: Config, src: EnvName, stamp: string)
    ensures DumpOutcome(cfg, src, false, stamp, map[]) == Outcome([DumpStepOf(cfg, src, stamp)], [], None)
  {
    ThenDone(Effect(LegacyDumpAction(cfg, src, LegacyDumpPath(cfg, src, stamp)), map[]));
  }

  /** As intended, with nothing failing the dump is fetched when the destination is local, then inserted and migrated. */
  lemma AfterDumpIntendedCompletes(cfg: Config, src: EnvName, dest: EnvName, path: string, localCopy: Step -> string)
    requires MakeUpdateSql(cfg.migrationCommands, MigrationFields(cfg, cfg.Env(dest))).Success?
    ensures var f := LegacyFetchStep(cfg, src, path);
      var file := if dest == Local then localCopy(f) else path;
      AfterDumpIntended(cfg, src, dest, path, map[], localCopy)
        == Outcome((if dest == Local then [f] else []) + ([IntendedInsertAction(cfg, dest, file).step] + StepsOf(LegacyMigratePlan(cfg, dest))), [], None)
  {
    var f := LegacyFetchStep(cfg, src, path);
    var file := if dest == Local then localCopy(f) else path;
    var load := [IntendedInsertAction(cfg, dest, file).step] + StepsOf(LegacyMigratePlan(cfg, dest));
    IntendedLoadCompletes(cfg, dest, file);
    if dest != Local {
      assert [] + load == load;
    }
  }

  /** As intended, an insert with nothing failing is followed by every migration query. */
  lemma IntendedLoadCompletes(cfg: Config, dest: EnvName, file: string)
    requires MakeUpdateSql(cfg.migrationCommands, MigrationFields(cfg, cfg.Env(dest))).Success?
    ensures IntendedLoad(cfg, dest, file, map[])
      == Outcome([IntendedInsertAction(cfg, dest, file).step] + StepsOf(LegacyMigratePlan(cfg, dest)), [], None)
  {
    MigrationCompletes(cfg, cfg.Env(dest), cfg.Env(dest).hostname);
    NoMigrationReports(cfg, dest, map[]);
  }

  // ---------------------------------------------------------------------------------------------
  // `sync(src, dest)` and `sync_files(src, dest)`

  /** `sync` as written: `sync_db` as written, then the unversioned files. */
  function SyncOutcome(cfg: Config, src: EnvName, dest: EnvName, stamp: string, failures: map<Step, string>): Outcome
  {
    Then(SyncDbOutcome(cfg, src, dest, stamp, failures), Perform(FileSync.SyncPlan(cfg, src, dest), failures))
  }

  /** `sync` over the corrected database sync. */
  function SyncIntendedOutcome(cfg: Config, src: EnvName, dest: EnvName, stamp: string,
                               failures: map<Step, string>, localCopy: Step -> string): Outcome
  {
    Then(SyncDbIntendedOutcome(cfg, src, dest, stamp, failures, localCopy), Perform(FileSync.SyncPlan(cfg, src, dest), failures))
  }

  /** `sync_files` is the file sync task's loop, line for line. */
  method SyncFiles(ex: Executor, cfg: Config, src: EnvName, dest: EnvName)
    modifies ex
    ensures ex.Extended(Perform(FileSync.SyncPlan(cfg, src, dest), ex.failures))
  {
    FileSync.Run(ex, cfg, src, dest);
  }

  method Sync(ex: Executor, cfg: Config, src: EnvName, dest: EnvName, stamp: string) returns (err: Option<Error>)
    modifies ex
    ensures ex.Extended(SyncOutcome(cfg, src, dest, stamp, ex.failures))
    ensures err == SyncOutcome(cfg, src, dest, stamp, ex.failures).error
  {
    err := SyncDb(ex, cfg, src, dest, stamp);
    ghost var o1 := SyncDbOutcome(cfg, src, dest, stamp, ex.failures);
    if err.Some? {
      return;
    }
    SyncFiles(ex, cfg, src, dest);
    ghost var o2 := Perform(FileSync.SyncPlan(cfg, src, dest), ex.failures);
    FileSync.SyncCompletes(cfg, src, dest, ex.failures);
    AppendAssoc(old(ex.trace), o1.issued, o2.issued);
    AppendAssoc(old(ex.reports), o1.reports, o2.reports);
  }

  /** The corrected `sync`: the corrected database sync, then the unversioned files. */
  method SyncIntended(ex: Executor, cfg: Config, src: EnvName, dest: EnvName, stamp: string) returns (err: Option<Error>)
    modifies ex
    ensures ex.Extended(SyncIntendedOutcome(cfg, src, dest, stamp, ex.failures, ex.localCopy))
    ensures err == SyncIntendedOutcome(cfg, src, dest, stamp, ex.failures, ex.localCopy).error
  {
    err := SyncDbIntended(ex, cfg, src, dest, stamp);
    ghost var o1 := SyncDbIntendedOutcome(cfg, src, dest, stamp, ex.failures, ex.localCopy);
    if err.Some? {
      return;
    }
    SyncFiles(ex, cfg, src, dest);
    ghost var o2 := Perform(FileSync.SyncPlan(cfg, src, dest), ex.failures);
    FileSync.SyncCompletes(cfg, src, dest, ex.failures);
    AppendAssoc(old(ex.trace), o1.issued, o2.issued);
    AppendAssoc(old(ex.reports), o1.reports, o2.reports);
  }

  /** Whatever database sync precedes it, the file sync runs only after one that ended without error. */
  lemma FilesAfter(cfg: Config, src: EnvName, dest: EnvName, db: Outcome, failures: map<Step, string>)
    ensures var o := Then(db, Perform(FileSync.SyncPlan(cfg, src, dest), failures));
      (db.error.Some? ==> o == db) &&
      (db.error.None? ==> o == Outcome(db.issued + StepsOf(FileSync.SyncPlan(cfg, src, dest)), db.reports, None))
  {
    var plan := FileSync.SyncPlan(cfg, src, dest);
    FileSync.SyncCompletes(cfg, src, dest, failures);
    var issued := Perform(plan, failures).issued;
    CommandsSteps(Control, None, FileSync.RsyncCommands(cfg, src, dest), Warn);
    assert issued == StepsOf(plan);
  }

  /**
   * The files are synced after the database, and only when the database sync ended
   * without error, both as written and as intended.
   */
  lemma SyncFilesAfterDb(cfg: Config, src: EnvName, dest: EnvName, stamp: string,
                         failures: map<Step, string>, localCopy: Step -> string)
    ensures var db := SyncDbOutcome(cfg, src, dest, stamp, failures);
      var o := SyncOutcome(cfg, src, dest, stamp, failures);
      (db.error.Some? ==> o == db) &&
      (db.error.None? ==> o == Outcome(db.issued + StepsOf(FileSync.SyncPlan(cfg, src, dest)), db.reports, None))
    ensures var db := SyncDbIntendedOutcome(cfg, src, dest, stamp, failures, localCopy);
      var o := SyncIntendedOutcome(cfg, src, dest, stamp, failures, localCopy);
      (db.error.Some? ==> o == db) &&
      (db.error.None? ==> o == Outcome(db.issued + StepsOf(FileSync.SyncPlan(cfg, src, dest)), db.reports, None))
  {
    FilesAfter(cfg, src, dest, SyncDbOutcome(cfg, src, dest, stamp, failures), failures);
    FilesAfter(cfg, src, dest, SyncDbIntendedOutcome(cfg, src, dest, stamp, failures, localCopy), failures);
  }

  /**
   * As written, `sync(src, 'local')` with nothing failing issues the dump, the download,
   * the migration queries and the rsyncs, and never the insert.
   */
  lemma LocalSyncAsWritten(cfg: Config, src: EnvName, stamp: string)
    requires src != Local
    requires MakeUpdateSql(cfg.migrationCommands, MigrationFields(cfg, cfg.local)).Success?
    ensures var path := LegacyDumpPath(cfg, src, stamp);
      SyncOutcome(cfg, src, Local, stamp, map[])
        == Outcome([DumpStepOf(cfg, src, stamp), LegacyFetchStep(cfg, src, path)] + StepsOf(LegacyMigratePlan(cfg, Local))
                     + StepsOf(FileSync.SyncPlan(cfg, src, Local)), [], None)
  {
    LocalInsertNeverIssued(cfg, src, stamp);
    FilesAfter(cfg, src, Local, SyncDbOutcome(cfg, src, Local, stamp, map[]), map[]);
  }

  /**
   * As written, `sync(src, dest)` into a remote environment stops with the database
   * sync's TypeError after the dump, so `sync_files` never runs.
   */
  lemma RemoteSyncStopsBeforeFiles(cfg: Config, src: EnvName, dest: EnvName, stamp: string, failures: map<Step, string>)
    requires src != Local && dest != Local
    requires DumpStepOf(cfg, src, stamp) !in failures
    ensures SyncOutcome(cfg, src, dest, stamp, failures) == Outcome([DumpStepOf(cfg, src, stamp)], [], Some(InsertTypeError))
  {
    RemoteInsertRaises(cfg, src, dest, stamp, failures);
  }

  // ---------------------------------------------------------------------------------------------
  // `restart(dest)`

  /** `dest` defaults to `prod`. */
  function RestartEnv(dest: Option<EnvName>): EnvName
  {
    match dest
    case None => Prod
    case Some(d) => d
  }

  function RestartPlan(cfg: Config, dest: Option<EnvName>): seq<Action>
  {
    Commands(Remote(HostOf(cfg, RestartEnv(dest))), None, cfg.appRestartCommands, RunPolicy(cfg.quietCommands))
  }

  method Restart(ex: Executor, cfg: Config, dest: Option<EnvName>) returns (err: Option<Error>)
    modifies ex
    ensures ex.Extended(Perform(RestartPlan(cfg, dest), ex.failures))
    ensures err == Perform(RestartPlan(cfg, dest), ex.failures).error
  {
    var d := if dest.None? then Prod else dest.value;
    err := Execute(ex, Commands(Remote(cfg.Env(d).hostname), None, cfg.appRestartCommands, RunPolicy(cfg.quietCommands)));
  }

  /**
   * `restart` issues the restart commands verbatim, in order, on the host of `dest`, or
   * of `prod` when no destination is given; when nothing fails it issues all of them.
   */
  lemma RestartCommands(cfg: Config, dest: Option<EnvName>)
    ensures var host := if dest.None? then cfg.prod.hostname else cfg.Env(dest.value).hostname;
      var steps := StepsOf(RestartPlan(cfg, dest));
      |steps| == |cfg.appRestartCommands| &&
      (forall i :: 0 <= i < |steps| ==> steps[i] == Exec(Remote(host), None, cfg.appRestartCommands[i])) &&
      Perform(RestartPlan(cfg, dest), map[]) == Outcome(steps, [], None)
  {
    var plan := RestartPlan(cfg, dest);
    CommandsSteps(Remote(HostOf(cfg, RestartEnv(dest))), None, cfg.appRestartCommands, RunPolicy(cfg.quietCommands));
    PerformNoFailures(plan, map[]);
    PolicyCommandsSilent(Remote(HostOf(cfg, RestartEnv(dest))), cfg.appRestartCommands, RunPolicy(cfg.quietCommands), map[]);
  }

  // ---------------------------------------------------------------------------------------------
  // `_provision(dest)`

  /** The message of the KeyError `env[dest]['repo']` raises when the environment has no repository folder. */
  const MissingRepoError := Raised("KeyError", "repo")

  /**
   * After the folder loop: `cd(env[dest]['repo'])` sits outside every `try`, so a missing
   * entry raises; otherwise the repository blocks run.  A failing `git init --bare` aborts
   * through its `except Exception`; the bare `except` of the other blocks prints its message
   * and exits.  `local()` ignores `cd`, and the remote is the bare repository path.
   */
  function LegacyRepoPlan(cfg: Config, dest: EnvName): seq<Action>
  {
    var e := cfg.Env(dest);
    match e.repo
    case None => [Stop(MissingRepoError)]
    case Some(repo) => RepoPlan(e.hostname, repo, e.root, dest, None, repo, ExitTask)
  }

  /** The folder loop on the environment's host, whose `except` only prints the KeyError of a missing entry. */
  function LegacyFoldersPlan(cfg: Config, dest: EnvName): seq<Action>
  {
    FoldersPlan(cfg.Env(dest), HostOf(cfg, dest), Continue)
  }

  function LegacyProvisionPlan(cfg: Config, dest: EnvName): seq<Action>
  {
    LegacyFoldersPlan(cfg, dest) + LegacyRepoPlan(cfg, dest)
  }

  method Provision(ex: Executor, cfg: Config, dest: EnvName) returns (err: Option<Error>)
    modifies ex
    ensures ex.Extended(Perform(LegacyProvisionPlan(cfg, dest), ex.failures))
    ensures err == Perform(LegacyProvisionPlan(cfg, dest), ex.failures).error
  {
    var e := cfg.Env(dest);
    ghost var folders, rest := LegacyFoldersPlan(cfg, dest), LegacyRepoPlan(cfg, dest);
    PerformAppend(folders, rest, ex.failures);
    err := MakeFolders(ex, e, e.hostname, Continue);
    ghost var o1 := Perform(folders, ex.failures);
    if err.Some? {
      return;
    }
    if e.repo.None? {
      err := Some(MissingRepoError);
      assert rest[1..] == [];
      AppendAssoc(old(ex.trace), o1.issued, []);
      AppendAssoc(old(ex.reports), o1.reports, []);
      return;
    }
    var repo := e.repo.value;
    err := SetUpRepo(ex, e.hostname, repo, e.root, dest, None, repo, ExitTask);
    AppendAssoc(old(ex.trace), o1.issued, Perform(rest, ex.failures).issued);
    AppendAssoc(old(ex.reports), o1.reports, Perform(rest, ex.failures).reports);
  }

  /**
   * Without a `repo` entry, the loop still makes the archive and root folders and prints
   * the KeyError it caught for `repo`; the task then stops with that KeyError.  A failing
   * mkdir aborts it first.
   */
  lemma LegacyMissingRepo(cfg: Config, dest: EnvName, failures: map<Step, string>)
    requires cfg.Env(dest).repo.None?
    ensures var e := cfg.Env(dest);
      var a, r := Exec(Remote(e.hostname), None, "mkdir -p " + e.archive), Exec(Remote(e.hostname), None, "mkdir -p " + e.root);
      Perform(LegacyProvisionPlan(cfg, dest), failures)
        == if a in failures then Outcome([a], [], Some(Aborted(a, failures[a])))
           else if r in failures then Outcome([a, r], [], Some(Aborted(r, failures[r])))
           else Outcome([a, r], [FolderMessage("repo") + "repo"], Some(MissingRepoError))
  {
    var e := cfg.Env(dest);
    var folders := LegacyFoldersPlan(cfg, dest);
    FoldersLackingRepo(e, e.hostname, failures);
    assert LegacyRepoPlan(cfg, dest) == [Stop(MissingRepoError)] + [];
    PerformCons(Stop(MissingRepoError), [], failures);
    PerformAppend(folders, [Stop(MissingRepoError)], failures);
  }

  /**
   * A failing `git init --bare` aborts the task, passing by its `except Exception`, before
   * any local git command; the folder loop has issued its three mkdirs.
   */
  lemma LegacyInitFailureAborts(cfg: Config, dest: EnvName, failures: map<Step, string>)
    requires cfg.Env(dest).repo.Some?
    requires forall s :: s in MkdirSteps(cfg.Env(dest), cfg.Env(dest).hostname) ==> s !in failures
    requires Exec(Remote(cfg.Env(dest).hostname), cfg.Env(dest).repo, "git init --bare") in failures
    ensures var e := cfg.Env(dest);
      var s := Exec(Remote(e.hostname), e.repo, "git init --bare");
      Perform(LegacyProvisionPlan(cfg, dest), failures) == Outcome(MkdirSteps(e, e.hostname) + [s], [], Some(Aborted(s, failures[s])))
  {
    var e := cfg.Env(dest);
    var h := e.hostname;
    var repo := e.repo.value;
    var a := InitRepoAction(h, repo);
    var tail := LocalRemotePlan(None, dest, repo, ExitTask) + WebRootPlan(h, e.root, repo, ExitTask);
    RepoPlanBlocks(h, repo, e.root, dest, None, repo, ExitTask);
    assert LegacyRepoPlan(cfg, dest) == [a] + tail;
    FoldersCreated(e, h, Continue, failures);
    PerformCons(a, tail, failures);
    PerformAppend(LegacyFoldersPlan(cfg, dest), [a] + tail, failures);
  }

  /** The nine commands of `_provision` when the environment has every folder. */
  function LegacySteps(cfg: Config, dest: EnvName): seq<Step>
    requires cfg.Env(dest).repo.Some?
  {
    var e := cfg.Env(dest);
    MkdirSteps(e, e.hostname) + RepoSteps(e.hostname, e.repo.value, e.root, dest, None, e.repo.value)
  }

  /** `_provision` is its nine commands; the two local git commands print their block's message and exit on failure. */
  lemma LegacyProvisionActions(cfg: Config, dest: EnvName)
    requires cfg.Env(dest).repo.Some?
    ensures var plan, steps := LegacyProvisionPlan(cfg, dest), LegacySteps(cfg, dest);
      |plan| == 9 && (forall j :: 0 <= j < 9 ==> plan[j].Do? && plan[j].step == steps[j]) &&
      forall j :: 4 <= j < 6 ==> plan[j].policy == Handle(Handler(LocalGitMessage, false, ExitTask))
  {
    var e := cfg.Env(dest);
    var h := e.hostname;
    var repo := e.repo.value;
    var steps := LegacySteps(cfg, dest);
    var rp := RepoPlan(h, repo, e.root, dest, None, repo, ExitTask);
    FoldersPlanSteps(e, h, Continue);
    RepoPlanBlocks(h, repo, e.root, dest, None, repo, ExitTask);
    var folders := LegacyFoldersPlan(cfg, dest);
    var plan := LegacyProvisionPlan(cfg, dest);
    assert plan == folders + rp;
    assert forall j :: 0 <= j < 3 ==> plan[j] == folders[j] && plan[j].step == steps[j];
    assert forall j :: 3 <= j < 9 ==> plan[j] == rp[j - 3] && rp[j - 3].step == steps[j];
  }

  /**
   * A failure in the local git block prints its message and exits, after the mkdirs, the
   * bare repository and the local commands up to the one that failed.
   */
  lemma LegacyLocalGitFailureExits(cfg: Config, dest: EnvName, i: nat, failures: map<Step, string>)
    requires cfg.Env(dest).repo.Some? && 4 <= i < 6
    requires LegacySteps(cfg, dest)[i] in failures && forall j :: 0 <= j < i ==> LegacySteps(cfg, dest)[j] !in failures
    ensures Perform(LegacyProvisionPlan(cfg, dest), failures) == Outcome(LegacySteps(cfg, dest)[..i + 1], [LocalGitMessage], Some(Exited))
  {
    LegacyProvisionActions(cfg, dest);
    FirstFailureStopsAt(LegacyProvisionPlan(cfg, dest), LegacySteps(cfg, dest), i, failures);
    assert LocalGitMessage + "" == LocalGitMessage;
  }
}
