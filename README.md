# Fabric-GitDeploy command planning, in Dafny

Fabric-GitDeploy is a set of Fabric tasks that deploy a git-managed WordPress site and
move its database and its unversioned files between a local machine and remote servers.
Most of what the tasks do is planning commands. Each task builds shell command strings and
says where each one runs: on the control machine (`local()`) or on a named host (`run()`),
and in which directory (`cd`/`lcd`). The commands are issued in a fixed order. A stage may be
skipped, a failure may stop the task, and some failures print a message first. This project
models that planning and proves properties of it.

Execution is a trace-recording `Execution.Executor` class. Its `Run`, `Get` and `Report`
methods append to the `trace` and `reports` fields. An oracle (`failures`, a map from step to
the error text Fabric would report) decides which steps fail, and an opaque `localCopy`
decides the local path `get` reports. Each task method changes only its executor. Its
`ensures` ties the new trace to a pure reference: `Execution.Perform` of the task's plan, a
`seq<Action>` whose actions carry the calling code's failure policy:

- Fabric's abort;
- `quiet`/`warn_only`;
- an `except` clause that prints and continues;
- an `except` clause that prints and calls `sys.exit(0)`;
- an `except` clause that raises its own exception.

The `@parallel` deploy stages use `Execution.PerformStage`. Every host runs its own job, and
the stage fails when any host failed. The lemmas then state what the source promises in terms
of these references.

Modules, one per file:

| file | module | models |
|---|---|---|
| base.dfy | `Base` | Option, Result, substring occurrence |
| percent.dfy | `Percent` | Python's `template % mapping` for `%(key)s` and `%%`, with its errors |
| environments.dfy | `Environments` | the `LOCAL`/`DEV`/`PROD` records and the configuration constants |
| execution.dfy | `Execution` | steps, failure policies, plans and their meaning, the executor |
| db_commands.dfy | `DbCommands` | the dump file name, the timestamp, mysql/mysqldump/gunzip command lines, migration queries |
| db_sync.dfy | `DbSync` | the class-based `DBSync` task |
| deployment.dfy | `Deployment` | the `Deploy` task (class `Deploy`, whose `cmdData` field `run` assigns) |
| file_sync.dfy | `FileSync` | the `FileSync` rsync task |
| provisioning.dfy | `Provisioning` | the `Provision` task, and the blocks the older `_provision` shares with it |
| fabfile.dfy | `Fabfile` | the single-file fabfile's tasks: `test`, `dump`, `sync_db`, `sync`, `restart`, `_provision` |
| readme_docs.dfy | `ReadmeDocs` | the string half of `_build_docs` |
| sample_config.dfy | `SampleConfig` | the sample application's configuration, and what the tasks do with it |

Where the code and its own documentation disagree, the model follows the code:

- Restart commands are run verbatim, with no interpolation and no working directory. The
  configuration's comment says they are interpolated.
- The single-file fabfile targets an environment's `hostname`, while `DBSync` targets
  `hosts[0]`, stripped.
- `DBSync` loads the bare dump name into a remote destination, but loads the fetched copy
  into a local one.

## Model

| member | source | states |
|---|---|---|
| Percent.KeyEnd | fabfile/core/db_sync.py:153-154 | when a `%(` key is closed, the index found holds the closing `)`, scanned from where the key opened |
| Percent.FormatInterpolates | fabfile/core/db_sync.py:153-154 | `%`-interpolating a template written from literal pieces and `%(key)s` fields equals its reference meaning, Render: literals copied (`%%` read as `%`), fields looked up, values not scanned again |
| Percent.RenderSucceeds | fabfile/core/db_sync.py:153-154 | rendering succeeds if and only if every key the template names is in the mapping |
| Percent.RenderFailure | fabfile/core/db_sync.py:153-154 | a failing render is a KeyError for a key the template names and the mapping lacks |
| Percent.InterpolatePlaceholder | fabfile/core/db_sync.py:153-154 | `%(key)s` is replaced by the key's value, which is not rescanned; a missing key raises KeyError |
| Percent.InterpolateEscape | fabfile/core/db_sync.py:153-154 | an escaped literal (each `%` doubled) interpolates back to itself, whatever follows |
| Percent.NoPercentUnchanged | sample_application/fabfile/config.py:75-85 | text without `%` interpolates to itself under any mapping |
| Percent.RenderAppend | fabfile/core/db_sync.py:153-154 | rendering a concatenation is rendering the first part then the second, the first error winning |
| Percent.FormatAppend | fabfile/core/db_sync.py:153-154 | the text of concatenated templates is the concatenation of their texts |
| Percent.RenderLitField | fabfile/core/db_sync.py:153-154 | a literal and a present field render as the literal, the value, then the rest |
| Environments.EnvFields | fabfile/core/deploy.py:83-86 | the `env[dest]` dictionary has `root` and `archive` with their values, and has `repo` exactly when the environment defines one |
| Environments.EnvFieldsExact | fabfile/core/deploy.py:83-86 | what `%` finds in `env[dest]`: exactly `hostname`, `home_url`, `wp_url`, `archive`, `root`, and `repo` when the environment defines one, each with its value; the list `hosts` and the dictionary `db` are not among them |
| Environments.EnvName.Key | fabfile/__init__.py:24-26 | every environment is registered under a non-empty name |
| Environments.LeadingSpaces | fabfile/core/deploy.py:44 | the whitespace run `s` starts with, ending at the first non-whitespace character |
| Environments.TrailingSpaces | fabfile/core/deploy.py:44 | the whitespace run `s` ends with, starting after the last non-whitespace character |
| Environments.StripEnd | fabfile/core/deploy.py:44 | where the stripped host string ends: only whitespace follows it, and the character before it is not whitespace |
| Environments.StripParts | fabfile/core/deploy.py:44 | `strip()` keeps the middle of a host string: it neither starts nor ends with whitespace, and everything cut off is whitespace |
| Environments.StripClean | fabfile/core/deploy.py:44 | a host string without whitespace at either end is kept as it is |
| Environments.Dedupe | fabfile/core/deploy.py:44 | the deduped host list holds exactly the hosts of the list, each once |
| Environments.DedupePrefix | fabfile/core/deploy.py:44 | deduping a prefix gives a prefix of the deduped list, so hosts keep their first-occurrence order |
| Environments.DedupeDistinct | fabfile/core/deploy.py:44 | a host list without repeats is kept as it is |
| Environments.ExecuteHostsOnce | fab_gd/core/provision.py:34 | `execute(task, role=dest)` runs on each distinct stripped host string of the role once, and on nothing else |
| Execution.Then | fabfile/core/db_sync.py:52-62 | a part that stopped the task ends it; otherwise the next part's steps follow its own |
| Execution.RunPolicy | fabfile/__init__.py:179 | `quiet=True` is warn-only, `quiet=False` is Fabric's abort |
| Execution.ThenAssoc | fabfile/core/db_sync.py:52-62 | sequencing task parts is associative |
| Execution.PerformAppend | fabfile/core/db_sync.py:52-62 | performing two plans in a row is the first, then the second unless the first stopped |
| Execution.PerformIssuesPrefix | fabfile/core/db_sync.py:52-62 | whatever fails, the steps issued are a prefix of the plan's steps |
| Execution.PerformCompletes | fabfile/core/db_sync.py:52-62 | a plan that ends without error has issued all its steps |
| Execution.PerformAbortsOnLast | fabfile/__init__.py:55 | a Fabric abort names the last step issued, which the oracle fails with the abort's text |
| Execution.NeverStopsCompletes | fabfile/__init__.py:150-151 | a plan of warn-only or print-and-continue commands issues all its steps and never fails |
| Execution.PerformNoFailures | fabfile/core/db_sync.py:52-62 | with no failing step and no raise, every step is issued and the plan succeeds |
| Execution.FirstFailure | fab_gd/core/provision.py:39-64 | when command `i` is the first to fail, the commands before it are issued quietly, then it, and its policy decides the end |
| Execution.FirstFailureStopsAt | fab_gd/core/provision.py:39-64 | in a plan of commands, when the first command to fail has a policy that stops the task, the task ends with that policy's reports and error, after exactly the commands before it |
| Execution.OnlyAborts | fabfile/__init__.py:211-215 | a plan whose only stopping actions are aborts and warn-only commands can end the task only with Fabric's abort of a step that failed |
| Execution.RunAllFails | fabfile/core/deploy.py:63-96 | a parallel stage fails if and only if some host's job failed |
| Execution.Executor.Run | fabfile/__init__.py:55 | `run()`/`local()` appends exactly its step to the trace and reports the oracle's failure |
| Execution.Executor.Get | fabfile/__init__.py:286-287 | `get()` appends its transfer step and returns no path exactly when the transfer fails |
| Execution.Executor.Report | fabfile/__init__.py:214-215 | a printed problem report is appended to the reports, and nothing is issued |
| Execution.Recover | fab_gd/core/provision.py:52-56 | what a failed command leaves behind under its policy: abort, carry on, print and go on, print and exit, or raise the handler's message |
| Execution.Fetched | fabfile/__init__.py:286-287 | `get` yields at most one local path, and none exactly when the transfer fails |
| Execution.Execute | fabfile/core/db_sync.py:52-62 | executing a plan extends the trace and reports by exactly its reference outcome |
| Execution.ExecuteAll | fab_gd/core/provision.py:34 | running jobs one after the other is performing their concatenation |
| Execution.Commands | fabfile/__init__.py:197-198 | a command loop issues one command per text, in order, with the same target, directory and policy |
| DbCommands.StampRoundTrip | fabfile/core/db_sync.py:111 | `strftime("%Y.%m.%d-%H.%M.%S")` is 19 characters, zero-padded, and parses back to the same time |
| DbCommands.DumpNameInjective | fabfile/core/db_sync.py:111-112 | two dumps of one source get the same file name if and only if they were made in the same second |
| DbCommands.CommandPiecesRender | fabfile/core/db_sync.py:110 | the credentials template rendered with the `db` dictionary is `PROGRAM -u U -pP -h H N` |
| DbCommands.MysqlTemplate | fabfile/core/db_sync.py:73 | the mysql template, interpolated, is the mysql client command with dest's credentials |
| DbCommands.MysqldumpTemplate | fabfile/core/db_sync.py:110 | the mysqldump template, interpolated, is the dump command with src's credentials |
| DbCommands.MigrationFields | fabfile/core/db_sync.py:153 | the migration mapping has exactly `db_name`, `db_prefix` (WP_PREFIX), `home_url` and `wp_url`, with dest's values |
| DbCommands.MakeUpdateSql | fabfile/core/db_sync.py:153-155 | the queries are built if and only if every template interpolates; then one per template, in order; otherwise the first failing template's error |
| DbCommands.MigrationSucceeds | fabfile/core/db_sync.py:153-155 | a well-formed template builds if and only if it names only the four migration keys |
| DbCommands.UnknownKeyFails | fabfile/core/db_sync.py:153-155 | one template naming a key outside the four makes the whole list fail |
| DbCommands.QueryCommands | fabfile/core/db_sync.py:136-141 | one `PREFIX -s -N -e "Q"` command per query, in order |
| DbCommands.MigrationCommands | fabfile/core/db_sync.py:135-141 | a migration issues one query command per template, in template order, all on the given host |
| DbCommands.MigrationCompletes | fabfile/core/db_sync.py:135-141 | with no failing step, a migration whose templates interpolate issues all its queries and succeeds |
| DbCommands.BadTemplateStopsMigration | fabfile/core/db_sync.py:135 | a template that cannot be interpolated stops the migration before any query is issued |
| DbCommands.RunMigration | fabfile/core/db_sync.py:135-141 | the query loop extends the trace by exactly the migration plan's outcome |
| DbSync.Dump | fabfile/core/db_sync.py:109-118 | `dump` returns `(name, archive/name)`, with `name = PROJECT-STAMP.src.sql.gz`, and issues a mysqldump piped through gzip into `archive/name` on src's first host, stripped as Fabric's `execute(hosts=…)` strips it |
| DbSync.FetchDump | fabfile/core/db_sync.py:88-90 | `fetch` transfers the dump from src's stripped first host into the local archive and returns `get`'s paths |
| DbSync.InsertDb | fabfile/core/db_sync.py:73-76 | `insert_db` issues `gunzip < F`, piped into `mysql -u U -pP -h H N`, with dest's credentials on dest's stripped first host |
| DbSync.FirstHostExecuted | fabfile/core/db_sync.py:52 | `execute(..., hosts=env[x]['hosts'][0])` runs on exactly one host, the stripped first entry of `hosts` |
| DbSync.Transfer | fabfile/core/db_sync.py:55-62 | after the dump: fetch when dest is local and insert its first local path, else insert the bare name; then migrate |
| DbSync.Load | fabfile/core/db_sync.py:61-62 | the insert, then the migration, both on dest's stripped first host |
| DbSync.Migrate | fabfile/core/db_sync.py:135-141 | `migrate` issues the migration plan on dest's stripped first host |
| DbSync.Run | fabfile/core/db_sync.py:39-62 | `run` extends the trace by exactly the reference outcome RunOutcome |
| DbSync.LocalSourceRefused | fabfile/core/db_sync.py:47-48 | a local source raises ValueError before any command is issued |
| DbSync.RunIssuesPrefix | fabfile/core/db_sync.py:52-62 | whatever fails, the steps issued are a prefix of: the dump, the fetch only for a local destination, the insert of the fetched copy or of the bare name, then the migration queries |
| DbSync.RunCompletes | fabfile/core/db_sync.py:52-62 | with nothing failing and buildable templates, that whole sequence is issued and the sync succeeds |
| DbSync.LoadIssuesPrefix | fabfile/core/db_sync.py:61-62 | the load issues a prefix of the insert followed by the queries |
| DbSync.TransferIssuesPrefix | fabfile/core/db_sync.py:55-62 | after the dump, a prefix of the fetch-then-load sequence is issued |
| FileSync.CmdVarsLookups | fabfile/core/file_sync.py:41-48 | `cmd_vars` maps `root` to src's root, `dest_root` to dest's root, both hostnames, the folder and `--cvs-exclude` |
| FileSync.TemplateRenders | fabfile/core/file_sync.py:49-52 | the template never fails, and gives the push form `rsync -ravz --cvs-exclude ROOT/dir/ DESTHOST:DESTROOT/dir` exactly when src is local, the pull form `… SRCHOST:ROOT/dir/ DESTROOT/dir` otherwise |
| FileSync.PushRenders | fabfile/core/file_sync.py:49-50 | the push template renders to the push command line |
| FileSync.PullRenders | fabfile/core/file_sync.py:51-52 | the pull template renders to the pull command line |
| FileSync.RsyncCommands | fabfile/core/file_sync.py:40-52 | one command line per unversioned folder, in list order |
| FileSync.SyncCompletes | fabfile/core/file_sync.py:40-55 | whatever fails, exactly one rsync per folder is issued, in order, on the control machine, and the task neither fails nor reports |
| FileSync.RenderCommand | fabfile/core/file_sync.py:41-52 | `template % cmd_vars` for one folder yields exactly that folder's push or pull rsync line, never an error |
| FileSync.Run | fabfile/core/file_sync.py:40-55 | the loop, which interpolates each folder's template with RenderCommand, extends the trace by exactly the sync plan's outcome |
| FileSync.TraceIsPlan | fabfile/core/file_sync.py:40-55 | a trace grown by one rsync per folder is the old trace followed by the plan's steps |
| Deployment.CmdData | fabfile/core/deploy.py:41 | `cmd_data` holds exactly `branch`, `dest` and `dest_branch` |
| Deployment.EnvByKey | fabfile/core/deploy.py:68-69 | `env[key]` finds the environment registered under `key`, if any |
| Deployment.DestOf | fabfile/core/deploy.py:68-69 | the destination lookup succeeds exactly when `cmd_data['dest']` names an environment |
| Deployment.PushRenders | fabfile/core/deploy.py:59 | the push template never fails on the recorded arguments and is `git push DEST BRANCH:DEST_BRANCH` |
| Deployment.UpdateRenders | fabfile/core/deploy.py:72 | the update template never fails and is `git reset --hard && git pull origin DEST_BRANCH` |
| Deployment.StageJobs | fabfile/core/deploy.py:44-50 | one job per host of the host list it is given, in order; `Stage` gives it the stripped, deduped role |
| Deployment.StageHostsOnce | fabfile/core/deploy.py:44-50 | a stage runs each distinct stripped host of the role once: job `i` is the task's job on the role's `i`-th host, which no other job shares and which stands, stripped, in the environment's `hosts` |
| Deployment.Deploy.constructor | fabfile/core/deploy.py:30-33 | a new task's `cmd_data` holds `None` for `branch`, `dest` and `dest_branch` |
| Deployment.Deploy.Run | fabfile/core/deploy.py:36-50 | `run` records its arguments in `cmdData`, then extends the trace by exactly DeployOutcome |
| Deployment.Deploy.RunStages | fabfile/core/deploy.py:44-50 | the three `execute` calls extend the trace by exactly the stages' outcome |
| Deployment.Deploy.RunOptionalStage | fabfile/core/deploy.py:46-50 | a stage runs only when its command list is non-empty |
| Deployment.Deploy.PushApp | fabfile/core/deploy.py:53-60 | `push_app` issues the push plan |
| Deployment.Deploy.ExecuteOnRole | fabfile/core/deploy.py:44 | `execute(task, role=dest)` runs every host's job, then fails if any host failed |
| Deployment.Deploy.RunTask | fabfile/core/deploy.py:63-96 | one host's `update_remote`, `post_deploy` or `restart` issues its job |
| Deployment.JobCompletes | fabfile/core/deploy.py:63-96 | with nothing failing, a host's job issues exactly its reference commands and prints nothing |
| Deployment.UpdateCompletes | fabfile/core/deploy.py:68-72 | the update job is `git reset --hard && git pull origin DEST_BRANCH` in dest's root |
| Deployment.PostDeployCompletes | fabfile/core/deploy.py:83-86 | the post-deploy job issues every command interpolated with dest's fields, in list order, in dest's root |
| Deployment.RestartCompletes | fabfile/core/deploy.py:94-96 | the restart job issues the restart commands verbatim, in order, with no directory |
| Deployment.RoleCompletes | fabfile/core/deploy.py:44-50 | with nothing failing, a stage issues every host's reference commands and succeeds |
| Deployment.PushCompletes | fabfile/core/deploy.py:57-60 | the push is one command, on the control machine, in the local root |
| Deployment.OptionalStageCompletes | fabfile/core/deploy.py:46-50 | a stage that runs issues its reference commands; a skipped one issues none |
| Deployment.StagesComplete | fabfile/core/deploy.py:44-50 | with nothing failing: every host updated, then every post-deploy command, then every restart command |
| Deployment.DeployCompletes | fabfile/core/deploy.py:41-50 | with nothing failing, one push from the local root precedes all updates, which precede all post-deploy commands, which precede all restarts |
| Deployment.EmptyRole | fabfile/core/deploy.py:46-50 | a stage whose command list is empty would issue nothing on any host |
| Deployment.EmptyStagesSkipped | fabfile/core/deploy.py:46-50 | with both optional lists empty, a deployment is the push followed by the update stage |
| Deployment.JobOnRole | fabfile/core/deploy.py:63-96 | a host's job only runs commands on that host |
| Deployment.RunAllOnRole | fabfile/core/deploy.py:44-50 | a stage only runs commands on the hosts of its role |
| Deployment.StagesOnRole | fabfile/core/deploy.py:44-50 | whatever fails, the host stages only run commands on the hosts of the destination role |
| Deployment.PushFirstAndOnce | fabfile/core/deploy.py:43-50 | whatever fails, the push is the first step and every later step runs on a host of the role |
| Deployment.PushAbortStopsDeploy | fabfile/core/deploy.py:43-44 | a push that aborts ends the deployment before any host is updated |
| Deployment.UpdateRoleIssues | fabfile/core/deploy.py:44-72 | whatever fails, the update stage runs the update command once on every host and prints nothing |
| Deployment.UpdateHostIssues | fabfile/core/deploy.py:69-72 | one host's update fails exactly when the oracle fails it and `quiet` is off |
| Deployment.UpdateStageFails | fabfile/core/deploy.py:44 | the update stage fails if and only if some host's update fails without `quiet` |
| Deployment.UpdateFailureStopsDeploy | fabfile/core/deploy.py:44-50 | a failed update stage ends the deployment after every host's update; no post-deploy or restart command runs |
| Deployment.BadTemplateStopsPostDeploy | fabfile/core/deploy.py:85-86 | a post-deploy template that cannot be interpolated stops that host's job with `%`'s error, after the commands before it |
| Provisioning.FolderPath | fab_gd/core/provision.py:41 | `env[dest][dir]` is present exactly when the dictionary has the entry, and is its value |
| Provisioning.FolderJobs | fab_gd/core/provision.py:39-43 | one loop turn per folder: archive, root, repo |
| Provisioning.FoldersPlanSteps | fab_gd/core/provision.py:39-43 | with every folder known, the loop is three `mkdir -p` commands in that order, each aborting on failure, since `except Exception` does not catch Fabric's abort |
| Provisioning.FoldersCreated | fab_gd/core/provision.py:39-43 | when no mkdir fails, the three are issued and the loop succeeds |
| Provisioning.MissingRepoRaises | fab_gd/core/provision.py:41-43 | without a `repo` entry the loop stops; when archive and root are made, the caught KeyError raises ``Could not make the `repo` folder: repo`` |
| Provisioning.FoldersNeedRepo | fab_gd/core/provision.py:39-45 | the repository set-up is reached only when the environment has a `repo` entry |
| Provisioning.RepoPlanSteps | fab_gd/core/provision.py:45-64 | `git init --bare` in repo; `git remote add DEST HOST:REPO` and `git push DEST --all` from the local root; `git init`, `git remote add origin REPO`, `git pull origin master` in root |
| Provisioning.ProvisionPlanActions | fab_gd/core/provision.py:39-64 | one host's provisioning is nine commands: mkdirs and `git init --bare` abort on failure; the local and web-root commands raise their block's message |
| Provisioning.FirstFailureStops | fab_gd/core/provision.py:39-64 | the first failing command is the last issued: a mkdir or `git init --bare` aborts with its failure (provision.py:42 and 48 do not catch the abort); a local or web-root command raises its block's message (the bare `except` at 55 and 63 does) |
| Provisioning.ProvisionCompletes | fab_gd/core/provision.py:39-64 | with nothing failing, a host gets its folders, its bare repository, the local remote and push, and its web root |
| Provisioning.BareRepoFailureAborts | fab_gd/core/provision.py:45-49 | a failing `git init --bare` aborts the task after the three mkdirs, before any local git command |
| Provisioning.HostJob | fab_gd/core/provision.py:34 | `execute` provisions each distinct stripped host of the role once: job `i` is the plan for the role's `i`-th host, which no other job shares and which stands, stripped, in the environment's `hosts` |
| Provisioning.RoleStopsAtFailedHost | fab_gd/core/provision.py:34 | an exception on one host ends the task: the later hosts are never provisioned |
| Provisioning.Run | fab_gd/core/provision.py:24-34 | `run` provisions the hosts of role `dest` in turn, extending the trace by exactly their plan's outcome |
| Provisioning.MakeFolders | fab_gd/core/provision.py:39-43 | the folder loop extends the trace by exactly its plan's outcome |
| Provisioning.SetUpRepo | fab_gd/core/provision.py:45-64 | the repository blocks extend the trace by exactly their plan's outcome |
| Provisioning.Provision | fab_gd/core/provision.py:37-64 | one host's `provision` extends the trace by exactly its plan's outcome |
| Provisioning.FoldersLackingRepo | fabfile/__init__.py:211-215 | without a `repo` entry, the legacy loop makes archive and root, then prints the KeyError for `repo` and goes on; a failing mkdir aborts it first |
| Provisioning.FoldersStopOnlyByAbort | fabfile/__init__.py:211-215 | the legacy loop, whose `except` only prints, can stop the task only by Fabric's abort of a failing mkdir |
| Fabfile.TestIssuesUname | fabfile/__init__.py:53-55 | `test` issues `uname -a` on the environment's hostname alone; its failure aborts the task |
| Fabfile.Test | fabfile/__init__.py:44-55 | `test` extends the trace by exactly that one effect |
| Fabfile.DumpSteps | fabfile/__init__.py:170-184 | a dump that goes through issues a mysqldump piped through gzip into `archive/PROJECT-STAMP.src.sql.gz` on src's hostname, then a download exactly when `fetch_dump` and src is remote |
| Fabfile.Dump | fabfile/__init__.py:156-184 | `dump` returns the full remote path, whether or not it downloads |
| Fabfile.DumpArgAsWritten | fabfile/__init__.py:181-182 | as written, with the command-line string as `fetch_dump`, a remote dump is downloaded exactly when the argument is non-empty, so `False` downloads it |
| Fabfile.DumpArgIntended | fabfile/__init__.py:164 | as documented, `False` issues only the dump; any other non-empty argument downloads a remote dump |
| Fabfile.DumpSucceeds | fabfile/__init__.py:170-184 | with nothing failing and no download, the dump command is the only step |
| Fabfile.FetchFile | fabfile/__init__.py:279-287 | `_fetch` transfers from the environment's hostname into the local archive and returns `get`'s paths |
| Fabfile.Migrate | fabfile/__init__.py:269-276 | `_migrate` extends the trace by exactly the migration plan on dest's hostname |
| Fabfile.NoMigrationReports | fabfile/__init__.py:274-276 | migration queries print no report |
| Fabfile.PolicyCommandsSilent | fabfile/__init__.py:197-198 | a command loop under abort or warn-only prints no report |
| Fabfile.SyncDb | fabfile/__init__.py:96-116 | `sync_db`, as written, extends the trace by exactly SyncDbOutcome |
| Fabfile.InsertAsWritten | fabfile/__init__.py:107-115 | the insert part, as written, extends the trace by exactly AfterDumpAsWritten |
| Fabfile.LocalSourceReported | fabfile/__init__.py:96-98 | a local source prints its message and returns, issuing nothing, in both versions |
| Fabfile.LocalInsertNeverIssued | fabfile/__init__.py:100-116 | as written, a sync into the local machine issues the dump, the download, the migration queries, and no insert |
| Fabfile.LocalAfterDumpAsWritten | fabfile/__init__.py:101-116 | as written, with nothing failing, a local destination gets the download and then the queries |
| Fabfile.RemoteInsertRaises | fabfile/__init__.py:113-116 | as written, a sync into a remote environment stops with a TypeError right after the dump |
| Fabfile.SyncDbIntended | fabfile/__init__.py:96-116 | the corrected `sync_db` extends the trace by exactly SyncDbIntendedOutcome |
| Fabfile.InsertIntended | fabfile/__init__.py:101-115 | the corrected insert part extends the trace by exactly AfterDumpIntended |
| Fabfile.Load | fabfile/__init__.py:107-116 | the corrected insert, then `_migrate` |
| Fabfile.IntendedSyncCompletes | fabfile/__init__.py:100-116 | corrected, with nothing failing: the dump, the download exactly when dest is local, the insert of the downloaded copy or of the remote path on dest, then the queries |
| Fabfile.AfterDumpIntendedCompletes | fabfile/__init__.py:101-116 | corrected, after the dump: download when local, then insert, then migrate |
| Fabfile.IntendedLoadCompletes | fabfile/__init__.py:107-116 | corrected, an insert that goes through is followed by every migration query |
| Fabfile.SyncFiles | fabfile/__init__.py:136-151 | `sync_files` extends the trace by exactly the file sync plan, the same loop as `FileSync.run` |
| Fabfile.Sync | fabfile/__init__.py:59-75 | `sync` extends the trace by exactly `sync_db` as written followed by the file sync |
| Fabfile.SyncFilesAfterDb | fabfile/__init__.py:59-75 | as written and as corrected, the files are synced after the database, one rsync per folder, and only when the database sync ended without error; otherwise `sync` ends as the database sync did |
| Fabfile.SyncIntended | fabfile/__init__.py:59-75 | the corrected `sync`: the corrected database sync, then the file sync |
| Fabfile.FilesAfter | fabfile/__init__.py:74-75 | whatever the database sync did, the file sync follows only an error-free one, adding one rsync per folder and no report |
| Fabfile.LocalSyncAsWritten | fabfile/__init__.py:74-75 | as written, `sync(src, 'local')` with nothing failing issues the dump, the download, the migration queries and the rsyncs, and never the insert |
| Fabfile.RemoteSyncStopsBeforeFiles | fabfile/__init__.py:74-75 | as written, `sync` into a remote environment stops with the TypeError after the dump, so `sync_files` never runs |
| Fabfile.Restart | fabfile/__init__.py:188-198 | `restart` extends the trace by exactly its plan |
| Fabfile.RestartCommands | fabfile/__init__.py:192-198 | `restart` issues the restart commands verbatim, in order, on dest's hostname or prod's when none is given; with nothing failing, all of them |
| Fabfile.Provision | fabfile/__init__.py:201-238 | `_provision` extends the trace by exactly its plan |
| Fabfile.LegacyMissingRepo | fabfile/__init__.py:210-217 | without a `repo` entry: archive and root are made, the KeyError for `repo` is printed, then `cd(env[dest]['repo'])` raises KeyError; a failing mkdir aborts first |
| Fabfile.LegacyProvisionActions | fabfile/__init__.py:210-238 | with every folder known, `_provision` is nine commands in order, and each local git command prints its block's message and exits on failure |
| Fabfile.LegacyInitFailureAborts | fabfile/__init__.py:217-222 | a failing `git init --bare` aborts `_provision` after the three mkdirs, passing by its `except Exception`, before any local git command |
| Fabfile.LegacyLocalGitFailureExits | fabfile/__init__.py:224-229 | the first failure in the local git block is caught by its bare `except`: it prints its message and exits, after the commands up to it |
| ReadmeDocs.Find | fabfile/__init__.py:350 | the first occurrence of the delimiter at or after an index, or none |
| ReadmeDocs.Top | fabfile/__init__.py:349-350 | the README's top is a prefix without the delimiter, followed in the README by the delimiter unless it is all of it |
| ReadmeDocs.TopOfRewrite | fabfile/__init__.py:347-353 | the top of a rewritten README is the top it was built from |
| ReadmeDocs.RewriteTwice | fabfile/__init__.py:347-353 | rewriting again replaces the sections and keeps the top; rewriting with the same sections changes nothing |
| ReadmeDocs.RewriteAppends | fabfile/__init__.py:347-353 | a README without the delimiter is kept whole, and the sections are appended after it |
| ReadmeDocs.RewriteTruncates | fabfile/__init__.py:347-353 | a README with the delimiter loses everything from its first delimiter on |
| ReadmeDocs.Split | fabfile/__init__.py:329 | `split('\n')` gives at least one piece, none holding the separator |
| ReadmeDocs.JoinSplit | fabfile/__init__.py:329 | splitting loses nothing: joining the pieces with the separator gives the text back |
| ReadmeDocs.ReplaceAbsent | fabfile/__init__.py:334-335 | a replacement whose pattern does not occur leaves the text as it is |
| ReadmeDocs.CleanDocPlain | fabfile/__init__.py:333-335 | a description with no indented line and no header line is kept as `fab -d` printed it |
| ReadmeDocs.TaskDocs | fabfile/__init__.py:331-336 | one entry per task, in order, holding its cleaned description |
| ReadmeDocs.DocTextAppend | fabfile/__init__.py:338-345 | the sections of two task lists are the first list's sections, then the second's |
| ReadmeDocs.BuildDocs | fabfile/__init__.py:326-353 | the two loops and the rewrite produce the top, the delimiter and one section per task, in task order |
| SampleConfig.SampleEnvironments | sample_application/fabfile/config.py:10-59 | every environment has a hostname, the two hosts, both URLs, both folders and the database; only DEV and PROD have `repo` |
| SampleConfig.SampleRoles | fabfile/__init__.py:28-32 | each sample role holds two distinct host strings without stray whitespace, so `execute` runs on `user@server1` and then `user@server2` |
| SampleConfig.LocalPaths | sample_application/fabfile/config.py:4-16 | LOCAL's archive and root are `/www/_archive/my_project` and `/www/my_project` |
| SampleConfig.MigrationQueries | sample_application/fabfile/config.py:105-108 | both migration templates interpolate, giving the siteurl update, then the home update |
| SampleConfig.SampleMigration | sample_application/fabfile/config.py:105-108 | a migration issues those two queries, in order, as mysql commands |
| SampleConfig.PostDeployPlain | sample_application/fabfile/config.py:81-85 | no post-deployment command holds a `%` |
| SampleConfig.PostDeployUnchanged | sample_application/fabfile/config.py:81-85 | interpolating the post-deployment commands with any mapping leaves them as written |
| SampleConfig.SamplePostDeployTexts | sample_application/fabfile/config.py:81-85 | every host runs the post-deployment commands exactly as written |
| SampleConfig.SampleRestartSkipped | sample_application/fabfile/config.py:92-94 | with no restart commands, the restart stage is skipped: the deployment is the push, the update and the post-deploy stage |
| SampleConfig.SampleRestartIssuesNothing | sample_application/fabfile/config.py:92-94 | `restart` issues nothing, whichever environment it is given |
| SampleConfig.SampleFileSync | sample_application/fabfile/config.py:72 | file sync issues one rsync, for `wp-content/uploads`, on the control machine, and never fails |
| SampleConfig.ThreeFieldsRender | sample_application/fabfile/config.py:105-108 | a template of three fields between four texts renders as the texts with each value in place |
| SampleConfig.ThreeFieldsInterpolate | sample_application/fabfile/config.py:105-108 | written as text, such a template interpolates to the texts with each value in place |

## Left out

- Running commands: SSH, git, mysql, gzip, rsync and file transfer. Each command is a trace step. An oracle decides which steps fail, and the local path `get` returns is an opaque input (`localCopy`).
- Parallelism: a `@parallel` stage runs its hosts' jobs in role order, and nothing else about their interleaving is modelled. The stage fails after every host has run when any host failed.
- The wall clock: the dump's timestamp is an input, a Timestamp record whose `strftime` rendering is Stamp.
- Printed progress messages and the output `quiet()` and `filter_quiet_commands` suppress. Two kinds of message are kept, as reports: those an `except` clause prints in `_provision`, and the refusal of a local source that `sync_db` prints (fabfile/__init__.py:97). `quiet()` remains as its warn-only failure policy.
- Environments.EnvFields: Python formats `%(hosts)s` and `%(db)s` as the list's and the dictionary's repr. The model holds only the string-valued entries, so it treats those two keys as missing, a KeyError (`MissingKey`). A dictionary's repr depends on Python's hash order, which is not modelled.
- `%` specifiers other than `%(key)s` and `%%` are reported as `Unsupported`, not formatted.
- Fabric's abort, whose code is not part of this model. It is taken as Fabric 1.x's default: a failing `run` or `local` raises `SystemExit`. `except Exception` lets that through (fab_gd/core/provision.py:42 and 48, fabfile/__init__.py:214 and 220), and a bare `except:` catches it. So the mkdir clauses print or raise their message only for the KeyError of a missing `repo` entry. The `git init --bare` clauses never do.
- Fabric's `execute` on an empty role. Fabric then runs the task once with no host and prompts for one. The model runs no job. This concerns Deployment.Stage, Deployment.StageJobs, Provisioning.HostJobs and Provisioning.RolePlan.
- Configuration loading, the `conf` descriptor classes, the header display (`SHOW_HEADER`, `HEADER_FN`), the upgrade tasks and packaging. The tasks read the configuration constants directly, as `Config`.
- Command-line argument parsing: task arguments reach the tasks as strings, while the model's tasks take typed arguments. The one place where this changes behaviour, `fetch_dump`, is recorded under "## Findings" (Fabfile.ArgFlag).
- Environment names other than `local`, `dev` and `prod`. With such a name, `Deploy.run` issues the push (fabfile/core/deploy.py:43) and then Fabric aborts on the unknown role at `execute(..., role=dest)` (deploy.py:44); `Provision.run` aborts the same way at fab_gd/core/provision.py:34. An unknown destination of `DBSync.run` (fabfile/core/db_sync.py:61) or of the single-file `sync_db` (fabfile/__init__.py:107) is a KeyError raised after the dump has been issued. Every other unknown name is a KeyError raised before any command.
- The I/O of `_build_docs`: the outputs of `fab --shortlist` and `fab -d` are inputs, and the README text is returned rather than written to the file.
- ReadmeDocs.CleanDoc: `re.sub` is modelled as a literal replacement of the header line, so a task name holding regular-expression metacharacters is not modelled.
- Fabfile.HostOf: `_host` assigning the global `env.host_string` is modelled as the target host of the commands inside it.
- Fabfile.RemoteInsertRaises: the TypeError's exact message comes from Fabric's `run`, which is not part of this model.

## Findings

| source | as written | input that shows it | evidently intended | confidence | as-written member | corrected member |
|---|---|---|---|---|---|---|
| fabfile/__init__.py:108-112 | the insert is a lambda that returns the gunzip-into-mysql command text, and `_filter_quiet_commands(cmd)` only calls it, building the string without issuing it | `sync_db('prod', 'local')` with nothing failing: the dump, the download, then the migration queries; no insert | `local(cmd())`: the dump is loaded into the local database before the migration runs | high, not executed | Fabfile.LocalInsertNeverIssued | Fabfile.IntendedSyncCompletes |
| fabfile/__init__.py:114-115 | `run(cmd, quiet=QUIET_COMMANDS)` is passed the lambda itself, and Fabric's `run` concatenates its command with a string prefix | `sync_db('prod', 'dev')` with the dump succeeding: a TypeError straight after the dump; no insert and no migration query | `run(cmd(), …)`: the remote dump is loaded on dest's host, then migrated | medium, not executed | Fabfile.RemoteInsertRaises | Fabfile.IntendedSyncCompletes |
| fabfile/__init__.py:181-182 | `if fetch_dump` tests the argument Fabric passes, which is a string on the command line, so any non-empty text downloads the dump | `fab dump:dev,False`: the dump is issued on dev's host, then downloaded into the local archive | the documented usage (fabfile/__init__.py:164): `False` leaves the dump on the server | medium, not executed | Fabfile.DumpArgAsWritten | Fabfile.DumpArgIntended |
