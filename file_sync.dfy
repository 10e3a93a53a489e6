/**
 * The `rsync` task: copies each unversioned folder from one environment to another
 * with one `rsync` run on the control machine.  A push (from the local machine) names
 * the destination host; a pull (from a remote source) names the source host.
 */
module FileSync {
  import opened Base
  import opened Percent
  import opened Environments
  import opened Execution

  const ExtraOptions := "--cvs-exclude"

  /** The `cmd_vars` dictionary built for folder `dir`. */
  function CmdVars(cfg: Config, src: EnvName, dest: EnvName, dir: string): map<string, string>
  {
    map["src_host" := cfg.Env(src).hostname, "dest_host" := cfg.Env(dest).hostname,
        "root" := cfg.Env(src).root, "dest_root" := cfg.Env(dest).root,
        "dir" := dir, "extra_options" := ExtraOptions]
  }

  /** `%(options)s `: the rsync invocation and its extra options. */
  const OptionPieces: seq<Piece> := [Lit("rsync -ravz "), Field("extra_options"), Lit(" ")]

  /** `%(root)s/%(dir)s`: a folder below the root named by `rootKey`. */
  function PathPieces(rootKey: string): seq<Piece>
  {
    [Field(rootKey), Lit("/"), Field("dir")]
  }

  /** `%(host)s:%(root)s/%(dir)s`: the same folder on the host named by `hostKey`. */
  function RemotePathPieces(hostKey: string, rootKey: string): seq<Piece>
  {
    [Field(hostKey), Lit(":")] + PathPieces(rootKey)
  }

  /** The push template, used when the source is the local machine. */
  const PushPieces: seq<Piece> :=
    OptionPieces + PathPieces("root") + [Lit("/ ")] + RemotePathPieces("dest_host", "dest_root")

  /** The pull template, used for every other source. */
  const PullPieces: seq<Piece> :=
    OptionPieces + RemotePathPieces("src_host", "root") + [Lit("/ ")] + PathPieces("dest_root")

  function Template(src: EnvName): string
  {
    Format(if src == Local then PushPieces else PullPieces)
  }

  function Path(root: string, dir: string): string
  {
    root + "/" + dir
  }

  function RemotePath(host: string, root: string, dir: string): string
  {
    host + ":" + Path(root, dir)
  }

  /**
   * The intended command line: the contents of the source folder (the trailing `/`) copied
   * into the destination folder, the remote side being named with its host.
   */
  function RsyncCommand(cfg: Config, src: EnvName, dest: EnvName, dir: string): string
  {
    var s := cfg.Env(src);
    var d := cfg.Env(dest);
    if src == Local then
      "rsync -ravz " + ExtraOptions + " " + Path(s.root, dir) + "/ " + RemotePath(d.hostname, d.root, dir)
    else
      "rsync -ravz " + ExtraOptions + " " + RemotePath(s.hostname, s.root, dir) + "/ " + Path(d.root, dir)
  }

  /** Every key `cmd_vars` defines, with its value. */
  lemma CmdVarsLookups(cfg: Config, src: EnvName, dest: EnvName, dir: string)
    ensures var m := CmdVars(cfg, src, dest, dir);
      "src_host" in m && m["src_host"] == cfg.Env(src).hostname &&
      "dest_host" in m && m["dest_host"] == cfg.Env(dest).hostname &&
      "root" in m && m["root"] == cfg.Env(src).root &&
      "dest_root" in m && m["dest_root"] == cfg.Env(dest).root &&
      "dir" in m && m["dir"] == dir &&
      "extra_options" in m && m["extra_options"] == ExtraOptions
  {
  }

  lemma OptionsRender(m: map<string, string>)
    requires "extra_options" in m
    ensures Render(OptionPieces, m) == Success("rsync -ravz " + m["extra_options"] + " ")
  {
    var ps, x := OptionPieces, m["extra_options"];
    assert Render(ps[2..], m) == Success(" ") by {
      assert ps[3..] == [] && " " + [] == " ";
      RenderAt(ps, 2, m);
    }
    assert Render(ps[1..], m) == Success(x + " ") by { RenderAt(ps, 1, m); }
    assert Render(ps, m) == Success("rsync -ravz " + (x + " ")) by { RenderAt(ps, 0, m); assert ps[0..] == ps; }
    assert "rsync -ravz " + (x + " ") == "rsync -ravz " + x + " ";
  }

  lemma PathRenders(rootKey: string, m: map<string, string>)
    requires rootKey in m && "dir" in m
    ensures Render(PathPieces(rootKey), m) == Success(Path(m[rootKey], m["dir"]))
  {
    var ps, r, d := PathPieces(rootKey), m[rootKey], m["dir"];
    assert Render(ps[2..], m) == Success(d) by {
      assert ps[3..] == [] && d + [] == d;
      RenderAt(ps, 2, m);
    }
    assert Render(ps[1..], m) == Success("/" + d) by { RenderAt(ps, 1, m); }
    assert Render(ps, m) == Success(r + ("/" + d)) by { RenderAt(ps, 0, m); assert ps[0..] == ps; }
    assert r + ("/" + d) == Path(r, d);
  }

  lemma RemotePathRenders(hostKey: string, rootKey: string, m: map<string, string>)
    requires hostKey in m && rootKey in m && "dir" in m
    ensures Render(RemotePathPieces(hostKey, rootKey), m) == Success(RemotePath(m[hostKey], m[rootKey], m["dir"]))
  {
    var ps, h := [Field(hostKey), Lit(":")], m[hostKey];
    assert Render(ps[1..], m) == Success(":") by {
      assert ps[2..] == [] && ":" + [] == ":";
      RenderAt(ps, 1, m);
    }
    assert Render(ps, m) == Success(h + ":") by { RenderAt(ps, 0, m); assert ps[0..] == ps; }
    PathRenders(rootKey, m);
    RenderAppend(ps, PathPieces(rootKey), m);
    assert (h + ":") + Path(m[rootKey], m["dir"]) == RemotePath(h, m[rootKey], m["dir"]);
  }

  lemma PathPlain(rootKey: string)
    requires PlainKey(rootKey)
    ensures PlainPieces(PathPieces(rootKey))
  {
    assert PlainKey("dir");
  }

  lemma RemotePathPlain(hostKey: string, rootKey: string)
    requires PlainKey(hostKey) && PlainKey(rootKey)
    ensures PlainPieces(RemotePathPieces(hostKey, rootKey))
  {
    PathPlain(rootKey);
    PlainAppend([Field(hostKey), Lit(":")], PathPieces(rootKey));
  }

  lemma PushPlain()
    ensures PlainPieces(PushPieces)
  {
    assert PlainPieces(OptionPieces) by { assert PlainKey("extra_options"); }
    assert PlainKey("root") && PlainKey("dest_host") && PlainKey("dest_root");
    PathPlain("root");
    RemotePathPlain("dest_host", "dest_root");
    PlainAppend(OptionPieces, PathPieces("root"));
    PlainAppend(OptionPieces + PathPieces("root"), [Lit("/ ")]);
    PlainAppend(OptionPieces + PathPieces("root") + [Lit("/ ")], RemotePathPieces("dest_host", "dest_root"));
  }

  lemma PullPlain()
    ensures PlainPieces(PullPieces)
  {
    assert PlainPieces(OptionPieces) by { assert PlainKey("extra_options"); }
    assert PlainKey("root") && PlainKey("src_host") && PlainKey("dest_root");
    PathPlain("dest_root");
    RemotePathPlain("src_host", "root");
    PlainAppend(OptionPieces, RemotePathPieces("src_host", "root"));
    PlainAppend(OptionPieces + RemotePathPieces("src_host", "root"), [Lit("/ ")]);
    PlainAppend(OptionPieces + RemotePathPieces("src_host", "root") + [Lit("/ ")], PathPieces("dest_root"));
  }

  /** The push template renders to the push command line. */
  lemma PushRenders(cfg: Config, dest: EnvName, dir: string)
    ensures Render(PushPieces, CmdVars(cfg, Local, dest, dir)) == Success(RsyncCommand(cfg, Local, dest, dir))
  {
    var m := CmdVars(cfg, Local, dest, dir);
    CmdVarsLookups(cfg, Local, dest, dir);
    var s, d := cfg.Env(Local), cfg.Env(dest);
    var a, b, c, e := OptionPieces, PathPieces("root"), [Lit("/ ")], RemotePathPieces("dest_host", "dest_root");
    var opts, src, dst := "rsync -ravz " + ExtraOptions + " ", Path(s.root, dir), RemotePath(d.hostname, d.root, dir);
    OptionsRender(m);
    PathRenders("root", m);
    RemotePathRenders("dest_host", "dest_root", m);
    assert Render(c, m) == Success("/ ") by {
      RenderAt(c, 0, m);
      assert c[1..] == [] && c[0..] == c && "/ " + [] == "/ ";
    }
    RenderAppend(a, b, m);
    assert Render(a + b, m) == Success(opts + src);
    RenderAppend(a + b, c, m);
    assert Render(a + b + c, m) == Success(opts + src + "/ ");
    RenderAppend(a + b + c, e, m);
    assert Render(a + b + c + e, m) == Success(opts + src + "/ " + dst);
  }

  /** The pull template renders to the pull command line. */
  lemma PullRenders(cfg: Config, src: EnvName, dest: EnvName, dir: string)
    requires src != Local
    ensures Render(PullPieces, CmdVars(cfg, src, dest, dir)) == Success(RsyncCommand(cfg, src, dest, dir))
  {
    var m := CmdVars(cfg, src, dest, dir);
    CmdVarsLookups(cfg, src, dest, dir);
    var s, d := cfg.Env(src), cfg.Env(dest);
    var a, b, c, e := OptionPieces, RemotePathPieces("src_host", "root"), [Lit("/ ")], PathPieces("dest_root");
    var opts, from, dst := "rsync -ravz " + ExtraOptions + " ", RemotePath(s.hostname, s.root, dir), Path(d.root, dir);
    OptionsRender(m);
    RemotePathRenders("src_host", "root", m);
    PathRenders("dest_root", m);
    assert Render(c, m) == Success("/ ") by {
      RenderAt(c, 0, m);
      assert c[1..] == [] && c[0..] == c && "/ " + [] == "/ ";
    }
    RenderAppend(a, b, m);
    assert Render(a + b, m) == Success(opts + from);
    RenderAppend(a + b, c, m);
    assert Render(a + b + c, m) == Success(opts + from + "/ ");
    RenderAppend(a + b + c, e, m);
    assert Render(a + b + c + e, m) == Success(opts + from + "/ " + dst);
  }

  /** Interpolating the template with `cmd_vars` never fails, and gives the intended command line. */
  lemma TemplateRenders(cfg: Config, src: EnvName, dest: EnvName, dir: string)
    ensures Interpolate(Template(src), CmdVars(cfg, src, dest, dir)) == Success(RsyncCommand(cfg, src, dest, dir))
  {
    var m := CmdVars(cfg, src, dest, dir);
    if src == Local {
      PushPlain();
      FormatInterpolates(PushPieces, m);
      PushRenders(cfg, dest, dir);
    } else {
      PullPlain();
      FormatInterpolates(PullPieces, m);
      PullRenders(cfg, src, dest, dir);
    }
  }

  /** The intended command lines, one per unversioned folder. */
  function RsyncCommands(cfg: Config, src: EnvName, dest: EnvName): (cmds: seq<string>)
    ensures |cmds| == |cfg.unversionedFolders|
    ensures forall i :: 0 <= i < |cmds| ==> cmds[i] == RsyncCommand(cfg, src, dest, cfg.unversionedFolders[i])
  {
    seq(|cfg.unversionedFolders|, i requires 0 <= i < |cfg.unversionedFolders| =>
      RsyncCommand(cfg, src, dest, cfg.unversionedFolders[i]))
  }

  /** The task's plan: each `local(cmd)` runs inside `quiet()`, so a failure is ignored. */
  function SyncPlan(cfg: Config, src: EnvName, dest: EnvName): seq<Action>
  {
    Commands(Control, None, RsyncCommands(cfg, src, dest), Warn)
  }

  /** Every folder is synced, in order, on the control machine, and the task never fails. */
  lemma SyncCompletes(cfg: Config, src: EnvName, dest: EnvName, failures: map<Step, string>)
    ensures Perform(SyncPlan(cfg, src, dest), failures).error.None?
    ensures Perform(SyncPlan(cfg, src, dest), failures).reports == []
    ensures var issued := Perform(SyncPlan(cfg, src, dest), failures).issued;
      |issued| == |cfg.unversionedFolders| &&
      forall i :: 0 <= i < |issued| ==>
        issued[i] == Exec(Control, None, RsyncCommand(cfg, src, dest, cfg.unversionedFolders[i]))
  {
    var plan := SyncPlan(cfg, src, dest);
    NeverStopsCompletes(plan, failures);
    CommandsSteps(Control, None, RsyncCommands(cfg, src, dest), Warn);
    NoReports(plan, failures);
  }

  /** A command loop under Warn prints nothing. */
  lemma {:induction false} NoReports(plan: seq<Action>, failures: map<Step, string>)
    requires forall i :: 0 <= i < |plan| ==> plan[i].Do? && plan[i].policy.Warn?
    ensures Perform(plan, failures).reports == []
  {
    if plan != [] {
      assert forall i :: 0 <= i < |plan[1..]| ==> plan[1..][i] == plan[i + 1];
      NoReports(plan[1..], failures);
      assert plan[0].Do? && plan[0].policy.Warn?;
    }
  }

  /** A trace that grew by one rsync per folder grew by what the plan issues. */
  lemma TraceIsPlan(before: seq<Step>, after: seq<Step>, cfg: Config, src: EnvName, dest: EnvName, failures: map<Step, string>)
    requires |after| == |before| + |cfg.unversionedFolders| && after[..|before|] == before
    requires forall j :: 0 <= j < |cfg.unversionedFolders| ==>
      after[|before| + j] == Exec(Control, None, RsyncCommand(cfg, src, dest, cfg.unversionedFolders[j]))
    ensures after == before + Perform(SyncPlan(cfg, src, dest), failures).issued
  {
    SyncCompletes(cfg, src, dest, failures);
    var issued := Perform(SyncPlan(cfg, src, dest), failures).issued;
    forall j | 0 <= j < |after| ensures after[j] == (before + issued)[j] {
      if j < |before| {
        assert after[j] == after[..|before|][j];
      }
    }
  }

  /** `template % cmd_vars` for one folder, which TemplateRenders shows always succeeds. */
  method RenderCommand(cfg: Config, src: EnvName, dest: EnvName, dir: string) returns (line: string)
    ensures line == RsyncCommand(cfg, src, dest, dir)
  {
    var r := Interpolate(Template(src), CmdVars(cfg, src, dest, dir));
    TemplateRenders(cfg, src, dest, dir);
    line := r.value;
  }

  /** `FileSync.run(src, dest)`. */
  method Run(ex: Executor, cfg: Config, src: EnvName, dest: EnvName)
    modifies ex
    ensures ex.Extended(Perform(SyncPlan(cfg, src, dest), ex.failures))
  {
    var folders := cfg.unversionedFolders;
    var i := 0;
    while i < |folders|
      invariant 0 <= i <= |folders|
      invariant |ex.trace| == |old(ex.trace)| + i && ex.trace[..|old(ex.trace)|] == old(ex.trace)
      invariant forall j :: 0 <= j < i ==>
        ex.trace[|old(ex.trace)| + j] == Exec(Control, None, RsyncCommand(cfg, src, dest, folders[j]))
      invariant ex.reports == old(ex.reports)
    {
      var line := RenderCommand(cfg, src, dest, folders[i]);
      var failure := ex.Run(Control, None, line);
      i := i + 1;
    }
    TraceIsPlan(old(ex.trace), ex.trace, cfg, src, dest, ex.failures);
    SyncCompletes(cfg, src, dest, ex.failures);
  }
}
