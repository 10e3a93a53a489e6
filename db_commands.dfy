/**
 * The database command texts both generations of the database sync build:
 * the dump file name and its timestamp, the mysqldump / gunzip / mysql command
 * lines, and the migration queries made from the configured templates.
 */
module DbCommands {
  import opened Base
  import opened Percent
  import opened Environments
  import opened Execution

  /** A reading of the wall clock, as `time.strftime` receives it. */
  datatype Timestamp = Timestamp(year: nat, month: nat, day: nat, hour: nat, minute: nat, second: nat)
  {
    /** What the clock can produce (strftime refuses years before 1900; seconds go up to 61). */
    predicate Valid()
    {
      1900 <= year <= 9999 && 1 <= month <= 12 && 1 <= day <= 31 && hour <= 23 && minute <= 59 && second <= 61
    }
  }

  function Digit(n: nat): char
    requires n < 10
  {
    ('0' as int + n) as char
  }

  function DigitValue(c: char): int
  {
    c as int - '0' as int
  }

  predicate IsDigit(c: char)
  {
    '0' <= c <= '9'
  }

  /** `time.strftime("%Y.%m.%d-%H.%M.%S")`: each field zero-padded, the year in four digits. */
  function Stamp(ts: Timestamp): string
    requires ts.Valid()
  {
    var hi, lo := ts.year / 100, ts.year % 100;
    [Digit(hi / 10), Digit(hi % 10), Digit(lo / 10), Digit(lo % 10), '.',
     Digit(ts.month / 10), Digit(ts.month % 10), '.', Digit(ts.day / 10), Digit(ts.day % 10), '-',
     Digit(ts.hour / 10), Digit(ts.hour % 10), '.', Digit(ts.minute / 10), Digit(ts.minute % 10), '.',
     Digit(ts.second / 10), Digit(ts.second % 10)]
  }

  /** The two-digit number at index `i` of `s`. */
  function TwoDigits(s: string, i: nat): int
    requires i + 2 <= |s|
  {
    10 * DigitValue(s[i]) + DigitValue(s[i + 1])
  }

  /** Reads a stamp back: the inverse of Stamp. */
  function ParseStamp(s: string): Option<Timestamp>
  {
    if |s| == 19 && s[4] == '.' && s[7] == '.' && s[10] == '-' && s[13] == '.' && s[16] == '.'
       && (forall i | 0 <= i < 19 && i !in {4, 7, 10, 13, 16} :: IsDigit(s[i]))
    then
      Some(Timestamp(100 * TwoDigits(s, 0) + TwoDigits(s, 2), TwoDigits(s, 5), TwoDigits(s, 8),
                     TwoDigits(s, 11), TwoDigits(s, 14), TwoDigits(s, 17)))
    else None
  }

  /** A number below 100 written as two digits at index `i` is read back from there. */
  lemma TwoDigitsAt(s: string, i: nat, n: nat)
    requires n < 100 && i + 2 <= |s| && s[i] == Digit(n / 10) && s[i + 1] == Digit(n % 10)
    ensures IsDigit(s[i]) && IsDigit(s[i + 1]) && TwoDigits(s, i) == n
  {
  }

  /** The stamp has the fixed `YYYY.MM.DD-HH.MM.SS` shape and reads back to the same time. */
  lemma StampRoundTrip(ts: Timestamp)
    requires ts.Valid()
    ensures |Stamp(ts)| == 19
    ensures ParseStamp(Stamp(ts)) == Some(ts)
  {
    var s := Stamp(ts);
    TwoDigitsAt(s, 0, ts.year / 100);
    TwoDigitsAt(s, 2, ts.year % 100);
    TwoDigitsAt(s, 5, ts.month);
    TwoDigitsAt(s, 8, ts.day);
    TwoDigitsAt(s, 11, ts.hour);
    TwoDigitsAt(s, 14, ts.minute);
    TwoDigitsAt(s, 17, ts.second);
    assert forall i | 0 <= i < 19 && i !in {4, 7, 10, 13, 16} :: IsDigit(s[i]);
  }

  /** `PROJECT_NAME-STAMP.src.sql.gz`, where STAMP is the clock reading as Stamp formats it. */
  function DumpName(projectName: string, stamp: string, src: EnvName): string
  {
    projectName + "-" + stamp + "." + src.Key() + ".sql.gz"
  }

  /** The archive-qualified dump path. */
  function DumpPath(archive: string, name: string): string
  {
    archive + "/" + name
  }

  /** The middle part of a text built from a prefix, a separator, the part and three suffixes. */
  lemma MiddleSlice(p: string, sep: string, x: string, q1: string, q2: string, q3: string)
    ensures var s := p + sep + x + q1 + q2 + q3;
      |p + sep| + |x| <= |s| && s[|p + sep|..|p + sep| + |x|] == x
  {
    var s := p + sep + x + q1 + q2 + q3;
    AppendAssoc(p + sep + x, q1, q2);
    AppendAssoc(p + sep + x, q1 + q2, q3);
    assert s == (p + sep + x) + (q1 + q2 + q3);
    assert (p + sep + x)[|p + sep|..] == x;
  }

  /**
   * Dump names are as distinct as the clock readings: two dumps of one source
   * share a name exactly when they are stamped in the same second.
   */
  lemma DumpNameInjective(projectName: string, a: Timestamp, b: Timestamp, src: EnvName)
    requires a.Valid() && b.Valid()
    ensures DumpName(projectName, Stamp(a), src) == DumpName(projectName, Stamp(b), src) <==> a == b
  {
    var sa, sb := Stamp(a), Stamp(b);
    StampRoundTrip(a);
    StampRoundTrip(b);
    MiddleSlice(projectName, "-", sa, ".", src.Key(), ".sql.gz");
    MiddleSlice(projectName, "-", sb, ".", src.Key(), ".sql.gz");
    assert DumpName(projectName, sa, src) == DumpName(projectName, sb, src) ==> sa == sb;
  }

  /** A mysql client program called with the environment's credentials: `-u U -pP -h H N`. */
  function ClientCommand(program: string, d: Database): string
  {
    program + " -u " + d.user + " -p" + d.password + " -h " + d.host + " " + d.name
  }

  function MysqlCommand(d: Database): string
  {
    ClientCommand("mysql", d)
  }

  function MysqldumpCommand(d: Database): string
  {
    ClientCommand("mysqldump", d)
  }

  /**
   * The pieces of the source's `'PROGRAM -u %(user)s -p%(password)s -h %(host)s %(name)s'`
   * templates, interpolated with the `db` dictionary.
   */
  function CommandPieces(program: string): seq<Piece>
  {
    [Lit(program + " -u "), Field("user"), Lit(" -p"), Field("password"), Lit(" -h "), Field("host"), Lit(" "), Field("name")]
  }

  lemma CommandPiecesPlain(program: string)
    ensures PlainPieces(CommandPieces(program))
  {
    var ps := CommandPieces(program);
    forall i | 0 <= i < |ps| && ps[i].Field? ensures PlainKey(ps[i].key) {
      assert i == 1 || i == 3 || i == 5 || i == 7;
    }
  }

  lemma DbFieldsLookup(d: Database)
    ensures var m := DbFields(d);
      "user" in m && "password" in m && "host" in m && "name" in m &&
      m["user"] == d.user && m["password"] == d.password && m["host"] == d.host && m["name"] == d.name
  {
  }

  /** Four rendered literal-and-field pairs, regrouped from the right to the left. */
  lemma RegroupPairs(a: string, b: string, c: string, d: string, e: string, f: string, g: string, h: string)
    ensures a + b + (c + d + (e + f + (g + h + []))) == a + b + c + d + e + f + g + h
  {
    assert g + h + [] == g + h;
    AppendAssoc(e + f, g, h);
    AppendAssoc(c + d, e + f, g + h);
    AppendAssoc(e, f, g + h);
    AppendAssoc(c, d, e + f + g + h);
    AppendAssoc(a + b, c + d, e + f + g + h);
  }

  lemma CommandPiecesRender(program: string, d: Database)
    ensures Render(CommandPieces(program), DbFields(d)) == Success(ClientCommand(program, d))
  {
    var m := DbFields(d);
    DbFieldsLookup(d);
    var q1, q2, q3, q4 := [Lit(program + " -u "), Field("user")], [Lit(" -p"), Field("password")], [Lit(" -h "), Field("host")], [Lit(" "), Field("name")];
    assert CommandPieces(program) == q1 + (q2 + (q3 + (q4 + [])));
    var v4 := " " + d.name + [];
    RenderLitField(" ", "name", [], m, []);
    var v3 := " -h " + d.host + v4;
    RenderLitField(" -h ", "host", q4 + [], m, v4);
    var v2 := " -p" + d.password + v3;
    RenderLitField(" -p", "password", q3 + (q4 + []), m, v3);
    RenderLitField(program + " -u ", "user", q2 + (q3 + (q4 + [])), m, v2);
    RegroupPairs(program + " -u ", d.user, " -p", d.password, " -h ", d.host, " ", d.name);
  }

  /** The source's mysql template, interpolated with the `db` dictionary, is MysqlCommand. */
  lemma MysqlTemplate(d: Database)
    ensures Interpolate(Format(CommandPieces("mysql")), DbFields(d)) == Success(MysqlCommand(d))
  {
    CommandPiecesPlain("mysql");
    FormatInterpolates(CommandPieces("mysql"), DbFields(d));
    CommandPiecesRender("mysql", d);
  }

  /** The source's mysqldump template, interpolated with the `db` dictionary, is MysqldumpCommand. */
  lemma MysqldumpTemplate(d: Database)
    ensures Interpolate(Format(CommandPieces("mysqldump")), DbFields(d)) == Success(MysqldumpCommand(d))
  {
    CommandPiecesPlain("mysqldump");
    FormatInterpolates(CommandPieces("mysqldump"), DbFields(d));
    CommandPiecesRender("mysqldump", d);
  }

  /** `'%s | gzip > %s' % (dump_cmd, path)`: the compressed dump written to `path`. */
  function DumpCommand(d: Database, path: string): string
  {
    MysqldumpCommand(d) + " | gzip > " + path
  }

  /** `'gunzip < %s | %s' % (file, insert_cmd)`: a compressed dump loaded into the database. */
  function InsertCommand(d: Database, file: string): string
  {
    "gunzip < " + file + " | " + MysqlCommand(d)
  }

  /** `cmd_prefix + (' -s -N -e "%s"' % query)`: one query run by the mysql client. */
  function QueryCommand(d: Database, query: string): string
  {
    MysqlCommand(d) + " -s -N -e \"" + query + "\""
  }

  /** The four names the migration templates may use. */
  const MigrationKeys: set<string> := {"db_name", "db_prefix", "home_url", "wp_url"}

  /** `dict(db_name=..., db_prefix=WP_PREFIX, home_url=..., wp_url=...)` for the destination. */
  function MigrationFields(cfg: Config, e: Environment): (m: map<string, string>)
    ensures m.Keys == MigrationKeys
    ensures m["db_name"] == e.db.name && m["db_prefix"] == cfg.wpPrefix
    ensures m["home_url"] == e.homeUrl && m["wp_url"] == e.wpUrl
  {
    map["db_name" := e.db.name, "db_prefix" := cfg.wpPrefix, "home_url" := e.homeUrl, "wp_url" := e.wpUrl]
  }

  /**
   * `[(cmd % cmd_data) for cmd in templates]`: every template interpolated, in order; the
   * first template that raises ends the comprehension with its error.
   */
  function MakeUpdateSql(templates: seq<string>, m: map<string, string>): (r: Result<seq<string>, FormatError>)
    ensures r.Success? <==> forall i :: 0 <= i < |templates| ==> Interpolate(templates[i], m).Success?
    ensures r.Success? ==> |r.value| == |templates|
    ensures r.Success? ==> forall i :: 0 <= i < |templates| ==> r.value[i] == Interpolate(templates[i], m).value
    ensures r.Failure? ==>
              exists i :: (0 <= i < |templates| && Interpolate(templates[i], m) == Failure(r.error)
                           && forall j :: 0 <= j < i ==> Interpolate(templates[j], m).Success?)
  {
    if templates == [] then Success([])
    else match Interpolate(templates[0], m)
      case Failure(e) => Failure(e)
      case Success(q) =>
        match MakeUpdateSql(templates[1..], m)
        case Failure(e) => Failure(e)
        case Success(qs) => Success([q] + qs)
  }

  /**
   * For well-formed templates, the migration queries can be built exactly when every
   * template names only `db_name`, `db_prefix`, `home_url` and `wp_url`.
   */
  lemma MigrationSucceeds(cfg: Config, e: Environment, templates: seq<Piece>)
    requires PlainPieces(templates)
    ensures MakeUpdateSql([Format(templates)], MigrationFields(cfg, e)).Success? <==> Keys(templates) <= MigrationKeys
  {
    FormatInterpolates(templates, MigrationFields(cfg, e));
    RenderSucceeds(templates, MigrationFields(cfg, e));
  }

  /** A template naming a key outside the four makes the whole list fail. */
  lemma UnknownKeyFails(cfg: Config, e: Environment, templates: seq<string>, i: nat, ps: seq<Piece>)
    requires i < |templates| && templates[i] == Format(ps) && PlainPieces(ps)
    requires !(Keys(ps) <= MigrationKeys)
    ensures MakeUpdateSql(templates, MigrationFields(cfg, e)).Failure?
  {
    FormatInterpolates(ps, MigrationFields(cfg, e));
    RenderSucceeds(ps, MigrationFields(cfg, e));
  }

  /** The mysql commands of a list of queries. */
  function QueryCommands(d: Database, queries: seq<string>): (cmds: seq<string>)
    ensures |cmds| == |queries|
    ensures forall i :: 0 <= i < |queries| ==> cmds[i] == QueryCommand(d, queries[i])
  {
    if queries == [] then [] else [QueryCommand(d, queries[0])] + QueryCommands(d, queries[1..])
  }

  /**
   * The migration of environment `e`'s database, from `host`: every query is built
   * before the first one runs, so a template that cannot be interpolated stops the
   * migration before any query is issued.
   */
  function MigrationPlan(cfg: Config, e: Environment, host: string): seq<Action>
  {
    match MakeUpdateSql(cfg.migrationCommands, MigrationFields(cfg, e))
    case Failure(err) => [Stop(BadTemplate(err))]
    case Success(qs) => Commands(Remote(host), None, QueryCommands(e.db, qs), RunPolicy(cfg.quietCommands))
  }

  /** `sql = make_update_sql(...)`, then `for query in sql: run(cmd_prefix + ...)`, on `host`. */
  method RunMigration(ex: Executor, cfg: Config, e: Environment, host: string) returns (err: Option<Error>)
    modifies ex
    ensures ex.Extended(Perform(MigrationPlan(cfg, e, host), ex.failures))
    ensures err == Perform(MigrationPlan(cfg, e, host), ex.failures).error
  {
    var sql := MakeUpdateSql(cfg.migrationCommands, MigrationFields(cfg, e));
    match sql
    case Failure(f) =>
      err := Some(BadTemplate(f));
      assert ex.trace == old(ex.trace) + [] && ex.reports == old(ex.reports) + [];
    case Success(qs) =>
      err := Execute(ex, Commands(Remote(host), None, QueryCommands(e.db, qs), RunPolicy(cfg.quietCommands)));
  }

  /** A migration issues one query command per template, in template order, all on `host`. */
  lemma MigrationCommands(cfg: Config, e: Environment, host: string)
    requires MakeUpdateSql(cfg.migrationCommands, MigrationFields(cfg, e)).Success?
    ensures |StepsOf(MigrationPlan(cfg, e, host))| == |cfg.migrationCommands|
    ensures forall i :: 0 <= i < |cfg.migrationCommands| ==>
      StepsOf(MigrationPlan(cfg, e, host))[i]
        == Exec(Remote(host), None, QueryCommand(e.db, Interpolate(cfg.migrationCommands[i], MigrationFields(cfg, e)).value))
  {
    var qs := MakeUpdateSql(cfg.migrationCommands, MigrationFields(cfg, e)).value;
    CommandsSteps(Remote(host), None, QueryCommands(e.db, qs), RunPolicy(cfg.quietCommands));
  }

  /** With no failing step, a migration whose templates interpolate issues all its queries. */
  lemma MigrationCompletes(cfg: Config, e: Environment, host: string)
    requires MakeUpdateSql(cfg.migrationCommands, MigrationFields(cfg, e)).Success?
    ensures Perform(MigrationPlan(cfg, e, host), map[]).error.None?
    ensures Perform(MigrationPlan(cfg, e, host), map[]).issued == StepsOf(MigrationPlan(cfg, e, host))
  {
    var qs := MakeUpdateSql(cfg.migrationCommands, MigrationFields(cfg, e)).value;
    var plan := Commands(Remote(host), None, QueryCommands(e.db, qs), RunPolicy(cfg.quietCommands));
    assert MigrationPlan(cfg, e, host) == plan;
    PerformNoFailures(plan, map[]);
  }

  /** A template that cannot be interpolated stops the migration before any query. */
  lemma BadTemplateStopsMigration(cfg: Config, e: Environment, host: string, failures: map<Step, string>)
    requires MakeUpdateSql(cfg.migrationCommands, MigrationFields(cfg, e)).Failure?
    ensures StepsOf(MigrationPlan(cfg, e, host)) == []
    ensures Perform(MigrationPlan(cfg, e, host), failures)
         == Outcome([], [], Some(BadTemplate(MakeUpdateSql(cfg.migrationCommands, MigrationFields(cfg, e)).error)))
  {
    var p := MigrationPlan(cfg, e, host);
    assert p[1..] == [];
  }
}
