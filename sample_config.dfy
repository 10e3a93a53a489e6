/**
 * The sample application's configuration module, as constants of the model, and what
 * the tasks do with them.  Long texts are written as concatenations of shorter literals
 * with the same characters.
 */
module SampleConfig {
  import opened Base
  import opened Percent
  import opened Environments
  import opened Execution
  import opened DbCommands
  import FileSync
  import Fabfile
  import Deployment

  const ProjectName := "my_project"

  const SampleDb := Database("DB_USER", "DB_PASS", "DB_NAME", "DB_HOST_NAME")

  const SampleHosts := ["user@server1", "user@server2"]

  const LocalEnv := Environment("user@server", SampleHosts, "http://local.website.com/", "http://local.website.com/",
                                "/www/_archive/" + ProjectName, "/www/" + ProjectName, None, SampleDb)

  const DevEnv := Environment("user@server", SampleHosts, "http://dev.website.com/", "http://dev.website.com/",
                              "~/webapps/PROJECT_NAME/archives", "~/webapps/PROJECT_NAME/dev",
                              Some("~/webapps/PROJECT_NAME/PROJECT_NAME.git"), SampleDb)

  const ProdEnv := Environment("user@server", SampleHosts, "http://www.website.com/", "http://www.website.com/",
                               "~/_archive/ysmt", "~/webapps/ysmt/public",
                               Some("~/webapps/PROJECT_NAME/PROJECT_NAME.git"), SampleDb)

  const WpPrefix := "wp"

  const UnversionedFolders := ["wp-content/uploads"]

  const RemoveDevFiles := "rm -rf .gitignore bower.json package.json " + "Gruntfile.js fabfile/ Vagrantfile " + "puphpet/ backup/"

  const PostDeployCommands := [RemoveDevFiles, "find . -type d -exec chmod 755 {} \\;", "find . -type f -exec chmod 644 {} \\;"]

  const AppRestartCommands: seq<string> := []

  const SiteurlTemplate := "UPDATE " + "%(db_name)s" + "." + "%(db_prefix)s" + "_options SET option_value='"
                           + "%(wp_url)s" + "' WHERE option_name='siteurl'"

  const HomeTemplate := "UPDATE " + "%(db_name)s" + "." + "%(db_prefix)s" + "_options SET option_value='"
                        + "%(home_url)s" + "' WHERE option_name='home'"

  const MigrationTemplates := [SiteurlTemplate, HomeTemplate]

  /** The configuration the tasks see, with `QUIET_COMMANDS = True`. */
  const Sample := Config(ProjectName, LocalEnv, DevEnv, ProdEnv, WpPrefix, UnversionedFolders,
                         PostDeployCommands, AppRestartCommands, MigrationTemplates, true)

  /** Text in which no `%` occurs, stated index by index. */
  predicate NoPercent(s: string)
  {
    forall i :: 0 <= i < |s| ==> s[i] != '%'
  }

  lemma NoPercentAppend(a: string, b: string)
    requires NoPercent(a) && NoPercent(b)
    ensures NoPercent(a + b) && '%' !in a + b
  {
    forall i | 0 <= i < |a + b| ensures (a + b)[i] != '%' {
      if i >= |a| {
        assert (a + b)[i] == b[i - |a|];
      }
    }
  }

  // ---------------------------------------------------------------------------------------------
  // The environments

  /** Every environment names a host, a role of two hosts, both URLs, both directories and a database. */
  lemma SampleEnvironments()
    ensures Sample.HasHosts()
    ensures forall n: EnvName :: Sample.Env(n).hosts == ["user@server1", "user@server2"]
    ensures forall n: EnvName :: Sample.Env(n).hostname != [] && Sample.Env(n).root != [] && Sample.Env(n).archive != []
    ensures forall n: EnvName :: Sample.Env(n).homeUrl != [] && Sample.Env(n).wpUrl != []
    ensures forall n: EnvName :: Sample.Env(n).db == Database("DB_USER", "DB_PASS", "DB_NAME", "DB_HOST_NAME")
    ensures Sample.local.repo.None? && Sample.dev.repo.Some? && Sample.prod.repo.Some?
  {
  }

  /** Each role's two host strings carry no stray whitespace and differ, so `execute` runs on both, in order. */
  lemma SampleRoles()
    ensures forall n: EnvName :: Sample.Role(n) == ["user@server1", "user@server2"]
  {
    var hs := ["user@server1", "user@server2"];
    StripClean(hs[0]);
    StripClean(hs[1]);
    assert seq(|hs|, k requires 0 <= k < |hs| => Strip(hs[k])) == hs;
    DedupeDistinct(hs);
    SampleEnvironments();
  }

  /** The local archive and web root are built from the project name. */
  lemma LocalPaths()
    ensures Sample.local.archive == "/www/_archive/my_project"
    ensures Sample.local.root == "/www/my_project"
  {
  }

  // ---------------------------------------------------------------------------------------------
  // The migration queries

  /** A template of three fields between four literal texts, the shape of both migration templates. */
  function ThreeFields(a: string, k1: string, b: string, k2: string, c: string, k3: string, d: string): seq<Piece>
  {
    [Lit(a)] + [Field(k1)] + [Lit(b)] + [Field(k2)] + [Lit(c)] + [Field(k3)] + [Lit(d)]
  }

  lemma NoPercentEscape(s: string)
    requires NoPercent(s)
    ensures Escape(s) == s
  {
    NoPercentAppend(s, []);
    assert s + [] == s;
    EscapePlain(s);
  }

  /** Written out, such a template is its texts with a placeholder for each field. */
  lemma ThreeFieldsFormat(a: string, k1: string, b: string, k2: string, c: string, k3: string, d: string)
    requires NoPercent(a) && NoPercent(b) && NoPercent(c) && NoPercent(d)
    ensures Format(ThreeFields(a, k1, b, k2, c, k3, d))
         == a + Placeholder(k1) + b + Placeholder(k2) + c + Placeholder(k3) + d
  {
    NoPercentEscape(a);
    NoPercentEscape(b);
    NoPercentEscape(c);
    NoPercentEscape(d);
    var p1 := [Lit(a)];
    assert Format(p1) == a by {
      FormatSnoc([], Lit(a));
      assert [] + [Lit(a)] == p1;
    }
    var p2 := p1 + [Field(k1)];
    FormatSnoc(p1, Field(k1));
    var p3 := p2 + [Lit(b)];
    FormatSnoc(p2, Lit(b));
    assert Format(p3) == a + Placeholder(k1) + b;
    var p4 := p3 + [Field(k2)];
    FormatSnoc(p3, Field(k2));
    var p5 := p4 + [Lit(c)];
    FormatSnoc(p4, Lit(c));
    assert Format(p5) == a + Placeholder(k1) + b + Placeholder(k2) + c;
    var p6 := p5 + [Field(k3)];
    FormatSnoc(p5, Field(k3));
    FormatSnoc(p6, Lit(d));
  }

  /** Rendered, such a template is its texts with each field's value in place. */
  lemma ThreeFieldsRender(a: string, k1: string, b: string, k2: string, c: string, k3: string, d: string,
                          m: map<string, string>)
    requires k1 in m && k2 in m && k3 in m
    ensures Render(ThreeFields(a, k1, b, k2, c, k3, d), m) == Success(a + m[k1] + b + m[k2] + c + m[k3] + d)
  {
    var p1 := [Lit(a)];
    assert Render(p1, m) == Success(a) by {
      assert p1[1..] == [];
      assert a + [] == a;
    }
    var p2 := p1 + [Field(k1)];
    RenderSnoc(p1, Field(k1), m);
    var p3 := p2 + [Lit(b)];
    RenderSnoc(p2, Lit(b), m);
    var p4 := p3 + [Field(k2)];
    RenderSnoc(p3, Field(k2), m);
    var p5 := p4 + [Lit(c)];
    RenderSnoc(p4, Lit(c), m);
    var p6 := p5 + [Field(k3)];
    RenderSnoc(p5, Field(k3), m);
    RenderSnoc(p6, Lit(d), m);
  }

  /** Rendering one more piece appends its text, or the value of its field. */
  lemma RenderSnoc(ps: seq<Piece>, p: Piece, m: map<string, string>)
    requires Render(ps, m).Success? && (p.Field? ==> p.key in m)
    ensures Render(ps + [p], m) == Success(Render(ps, m).value + (if p.Lit? then p.text else m[p.key]))
  {
    RenderAppend(ps, [p], m);
    assert [p][1..] == [];
    var v := if p.Lit? then p.text else m[p.key];
    assert Render([p], m) == Success(v + []);
    assert v + [] == v;
  }

  /** Such a template means its texts with each field's value in place. */
  lemma ThreeFieldsMeaning(a: string, k1: string, b: string, k2: string, c: string, k3: string, d: string,
                           m: map<string, string>)
    requires PlainKey(k1) && PlainKey(k2) && PlainKey(k3)
    requires k1 in m && k2 in m && k3 in m
    ensures Interpolate(Format(ThreeFields(a, k1, b, k2, c, k3, d)), m) == Success(a + m[k1] + b + m[k2] + c + m[k3] + d)
  {
    var ps := ThreeFields(a, k1, b, k2, c, k3, d);
    assert ps == [Lit(a), Field(k1), Lit(b), Field(k2), Lit(c), Field(k3), Lit(d)];
    assert PlainPieces(ps);
    FormatInterpolates(ps, m);
    ThreeFieldsRender(a, k1, b, k2, c, k3, d, m);
  }

  /** Written as text, such a template interpolates to its texts with each field's value in place. */
  lemma ThreeFieldsInterpolate(a: string, k1: string, b: string, k2: string, c: string, k3: string, d: string,
                               m: map<string, string>)
    requires NoPercent(a) && NoPercent(b) && NoPercent(c) && NoPercent(d)
    requires PlainKey(k1) && PlainKey(k2) && PlainKey(k3)
    requires k1 in m && k2 in m && k3 in m
    ensures Interpolate(a + Placeholder(k1) + b + Placeholder(k2) + c + Placeholder(k3) + d, m)
         == Success(a + m[k1] + b + m[k2] + c + m[k3] + d)
  {
    ThreeFieldsFormat(a, k1, b, k2, c, k3, d);
    ThreeFieldsMeaning(a, k1, b, k2, c, k3, d, m);
  }

  /** The literal texts of the migration templates hold no `%`. */
  lemma MigrationTextsPlain()
    ensures NoPercent("UPDATE ") && NoPercent(".") && NoPercent("_options SET option_value='")
    ensures NoPercent("' WHERE option_name='siteurl'") && NoPercent("' WHERE option_name='home'")
  {
    assert NoPercent("UPDATE ");
    assert NoPercent("_options SET option_value='");
    assert NoPercent("' WHERE option_name='siteurl'");
  }

  /** The keys of the migration templates hold no parenthesis, and their placeholders are as written. */
  lemma MigrationKeysPlain()
    ensures PlainKey("db_name") && PlainKey("db_prefix") && PlainKey("wp_url") && PlainKey("home_url")
    ensures Placeholder("db_name") == "%(db_name)s" && Placeholder("db_prefix") == "%(db_prefix)s"
    ensures Placeholder("wp_url") == "%(wp_url)s" && Placeholder("home_url") == "%(home_url)s"
  {
    assert PlainKey("db_name");
    assert PlainKey("db_prefix");
    assert PlainKey("wp_url");
    assert PlainKey("home_url");
  }

  /** The query that points WordPress's site URL of destination `e` at its `wp_url`. */
  function SiteurlQuery(e: Environment): string
  {
    "UPDATE " + e.db.name + "." + WpPrefix + "_options SET option_value='" + e.wpUrl + "' WHERE option_name='siteurl'"
  }

  /** The query that points WordPress's home URL of destination `e` at its `home_url`. */
  function HomeQuery(e: Environment): string
  {
    "UPDATE " + e.db.name + "." + WpPrefix + "_options SET option_value='" + e.homeUrl + "' WHERE option_name='home'"
  }

  /** Both migration templates interpolate, giving the siteurl update, then the home update. */
  lemma MigrationQueries(e: Environment)
    ensures MakeUpdateSql(Sample.migrationCommands, MigrationFields(Sample, e))
         == Success([SiteurlQuery(e), HomeQuery(e)])
  {
    var m := MigrationFields(Sample, e);
    MigrationTextsPlain();
    MigrationKeysPlain();
    assert Sample.migrationCommands[1..] == [HomeTemplate] && [HomeTemplate][1..] == [];
    ThreeFieldsInterpolate("UPDATE ", "db_name", ".", "db_prefix", "_options SET option_value='", "wp_url",
                           "' WHERE option_name='siteurl'", m);
    ThreeFieldsInterpolate("UPDATE ", "db_name", ".", "db_prefix", "_options SET option_value='", "home_url",
                           "' WHERE option_name='home'", m);
    assert Sample.migrationCommands == [SiteurlTemplate, HomeTemplate];
    assert m["db_name"] == e.db.name && m["db_prefix"] == WpPrefix && m["wp_url"] == e.wpUrl;
    assert Interpolate(SiteurlTemplate, m) == Success(SiteurlQuery(e));
    assert Interpolate(HomeTemplate, m) == Success(HomeQuery(e));
    var ts := Sample.migrationCommands;
    assert forall i :: 0 <= i < |ts| ==> Interpolate(ts[i], m).Success?;
    var r := MakeUpdateSql(ts, m);
    assert r.value[0] == SiteurlQuery(e) && r.value[1] == HomeQuery(e);
    assert r.value == [SiteurlQuery(e), HomeQuery(e)];
  }

  // ---------------------------------------------------------------------------------------------
  // The deployment commands

  lemma NoPercentMember(s: string)
    requires NoPercent(s)
    ensures '%' !in s
  {
    NoPercentAppend(s, []);
    assert s + [] == s;
  }

  lemma RemoveDevFilesPlain()
    ensures '%' !in RemoveDevFiles
  {
    assert NoPercent("rm -rf .gitignore bower.json package.json ");
    assert NoPercent("Gruntfile.js fabfile/ Vagrantfile ");
    assert NoPercent("puphpet/ backup/");
    NoPercentAppend("rm -rf .gitignore bower.json package.json ", "Gruntfile.js fabfile/ Vagrantfile ");
    NoPercentAppend("rm -rf .gitignore bower.json package.json " + "Gruntfile.js fabfile/ Vagrantfile ", "puphpet/ backup/");
  }

  lemma ChmodPlain()
    ensures '%' !in "find . -type d -exec chmod 755 {} \\;" && '%' !in "find . -type f -exec chmod 644 {} \\;"
  {
    assert NoPercent("find . -type d -exec chmod 755 {} \\;");
    assert NoPercent("find . -type f -exec chmod 644 {} \\;");
    NoPercentMember("find . -type d -exec chmod 755 {} \\;");
    NoPercentMember("find . -type f -exec chmod 644 {} \\;");
  }

  /** No post-deployment command holds a `%`. */
  lemma PostDeployPlain()
    ensures forall j :: 0 <= j < |Sample.postDeployCommands| ==> '%' !in Sample.postDeployCommands[j]
  {
    RemoveDevFilesPlain();
    ChmodPlain();
  }

  /** Interpolating the post-deployment commands with any mapping leaves them as written. */
  lemma PostDeployUnchanged(m: map<string, string>)
    ensures forall j :: 0 <= j < |Sample.postDeployCommands| ==>
      Interpolate(Sample.postDeployCommands[j], m) == Success(Sample.postDeployCommands[j])
  {
    PostDeployPlain();
    forall j | 0 <= j < |Sample.postDeployCommands|
      ensures Interpolate(Sample.postDeployCommands[j], m) == Success(Sample.postDeployCommands[j])
    {
      NoPercentUnchanged(Sample.postDeployCommands[j], m);
    }
  }

  /** Every host of the destination runs the post-deployment commands exactly as written. */
  lemma SamplePostDeployTexts(dest: EnvName)
    ensures Deployment.PostDeployBuilds(Sample, dest)
    ensures Deployment.PostDeployTexts(Sample.postDeployCommands, EnvFields(Sample.Env(dest))) == Sample.postDeployCommands
  {
    PostDeployUnchanged(EnvFields(Sample.Env(dest)));
  }

  /** With no restart commands, a deployment is the push, the update stage and the post-deployment stage. */
  lemma SampleRestartSkipped(data: map<string, string>, dest: EnvName, failures: map<Step, string>)
    ensures Deployment.OptionalStage(Sample, data, Deployment.Restart, dest, failures) == Done
    ensures Deployment.DeployOutcome(Sample, data, dest, failures)
         == Then(Perform(Deployment.PushPlan(Sample, data), failures),
                 Then(Deployment.Stage(Sample, data, Deployment.UpdateRemote, dest, failures),
                      Deployment.Stage(Sample, data, Deployment.PostDeploy, dest, failures)))
  {
    ThenDone(Deployment.Stage(Sample, data, Deployment.PostDeploy, dest, failures));
  }

  /** File sync issues one rsync, for the uploads folder, on the control machine, and never fails. */
  lemma SampleFileSync(src: EnvName, dest: EnvName, failures: map<Step, string>)
    ensures Perform(FileSync.SyncPlan(Sample, src, dest), failures)
         == Outcome([Exec(Control, None, FileSync.RsyncCommand(Sample, src, dest, "wp-content/uploads"))], [], None)
  {
    FileSync.SyncCompletes(Sample, src, dest, failures);
  }

  /** `restart` with the sample configuration issues nothing, whichever environment it is given. */
  lemma SampleRestartIssuesNothing(dest: Option<EnvName>, failures: map<Step, string>)
    ensures Perform(Fabfile.RestartPlan(Sample, dest), failures) == Done
  {
  }

  /** A migration issues the siteurl update, then the home update, as mysql commands on `host`. */
  lemma SampleMigration(e: Environment, host: string)
    ensures StepsOf(MigrationPlan(Sample, e, host))
         == [Exec(Remote(host), None, QueryCommand(e.db, SiteurlQuery(e))),
             Exec(Remote(host), None, QueryCommand(e.db, HomeQuery(e)))]
  {
    MigrationQueries(e);
    MigrationCommands(Sample, e, host);
  }
}
