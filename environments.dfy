/**
 * The environment registry: the three named deployment targets and the
 * configuration constants the tasks import.  Fabric's `env` holds one
 * dictionary per environment; the model holds one record.
 */
module Environments {
  import opened Base

  /** The three environment names; each is also the name of a Fabric role and of a git remote. */
  datatype EnvName = Local | Dev | Prod
  {
    function Key(): (k: string)
      ensures k != []
    {
      match this
      case Local => "local"
      case Dev => "dev"
      case Prod => "prod"
    }
  }

  datatype Database = Database(user: string, password: string, name: string, host: string)

  /** One environment's dictionary: `repo` is optional, the other entries are always present. */
  datatype Environment = Environment(
    hostname: string,
    hosts: seq<string>,
    homeUrl: string,
    wpUrl: string,
    archive: string,
    root: string,
    repo: Option<string>,
    db: Database)

  /** The constants of the configuration module the tasks import. */
  datatype Config = Config(
    projectName: string,
    local: Environment,
    dev: Environment,
    prod: Environment,
    wpPrefix: string,
    unversionedFolders: seq<string>,
    postDeployCommands: seq<string>,
    appRestartCommands: seq<string>,
    migrationCommands: seq<string>,
    quietCommands: bool)
  {
    /** `env[name]`. */
    function Env(name: EnvName): Environment
    {
      match name
      case Local => local
      case Dev => dev
      case Prod => prod
    }

    /**
     * The hosts `execute(task, role=name)` runs on: the role is the environment's `hosts`
     * list, which Fabric strips and dedupes.
     */
    function Role(name: EnvName): seq<string>
    {
      ExecuteHosts(Env(name).hosts)
    }

    /** Every role has a first host, as `env[name]['hosts'][0]` needs. */
    predicate HasHosts()
    {
      |local.hosts| > 0 && |dev.hosts| > 0 && |prod.hosts| > 0
    }
  }

  /**
   * The string-valued entries of an environment's dictionary, as `%` sees them: the list
   * `hosts` and the dictionary `db` are not among them.
   */
  function EnvFields(e: Environment): (m: map<string, string>)
    ensures "repo" in m <==> e.repo.Some?
    ensures "root" in m && m["root"] == e.root
    ensures "archive" in m && m["archive"] == e.archive
  {
    var m := map["hostname" := e.hostname, "home_url" := e.homeUrl, "wp_url" := e.wpUrl,
                 "archive" := e.archive, "root" := e.root];
    match e.repo
    case None => m
    case Some(r) => m["repo" := r]
  }

  /**
   * `%` finds exactly the string-valued entries of `env[dest]`, each with its value; the
   * list `hosts` and the dictionary `db` are not among them.
   */
  lemma EnvFieldsExact(e: Environment)
    ensures EnvFields(e).Keys == {"hostname", "home_url", "wp_url", "archive", "root"} + (if e.repo.Some? then {"repo"} else {})
    ensures "hosts" !in EnvFields(e) && "db" !in EnvFields(e)
    ensures EnvFields(e)["hostname"] == e.hostname && EnvFields(e)["home_url"] == e.homeUrl && EnvFields(e)["wp_url"] == e.wpUrl
    ensures e.repo.Some? ==> EnvFields(e)["repo"] == e.repo.value
  {
  }

  /** The `db` dictionary. */
  function DbFields(d: Database): map<string, string>
  {
    map["user" := d.user, "password" := d.password, "name" := d.name, "host" := d.host]
  }

  // ---------------------------------------------------------------------------------------------
  // The host list of `execute(task, role=name)`

  /** Python's whitespace, as `str.strip()` removes it: space, tab, newline, vertical tab, form feed, return. */
  predicate IsSpace(c: char)
  {
    c == ' ' || 9 <= c as int <= 13
  }

  /** The number of whitespace characters `s` starts with. */
  function LeadingSpaces(s: string): (k: nat)
    ensures k <= |s|
    ensures forall j :: 0 <= j < k ==> IsSpace(s[j])
    ensures k == |s| || !IsSpace(s[k])
  {
    if s == [] || !IsSpace(s[0]) then 0 else 1 + LeadingSpaces(s[1..])
  }

  /** The number of whitespace characters `s` ends with. */
  function TrailingSpaces(s: string): (k: nat)
    ensures k <= |s|
    ensures forall j :: |s| - k <= j < |s| ==> IsSpace(s[j])
    ensures k == |s| || !IsSpace(s[|s| - k - 1])
  {
    if s == [] || !IsSpace(s[|s| - 1]) then 0 else 1 + TrailingSpaces(s[..|s| - 1])
  }

  /** Where `s.strip()` ends: before the trailing whitespace, or at its start when `s` is all whitespace. */
  function StripEnd(s: string): (j: nat)
    ensures LeadingSpaces(s) <= j <= |s|
    ensures forall k :: j <= k < |s| ==> IsSpace(s[k])
    ensures LeadingSpaces(s) < j ==> !IsSpace(s[j - 1])
  {
    if LeadingSpaces(s) == |s| then |s| else |s| - TrailingSpaces(s)
  }

  /** `s.strip()`. */
  function Strip(s: string): string
  {
    s[LeadingSpaces(s)..StripEnd(s)]
  }

  /**
   * `s.strip()` is the part of `s` left once the whitespace at both ends is cut off: it
   * neither starts nor ends with whitespace, and everything cut off is whitespace.
   */
  lemma StripParts(s: string)
    ensures var i, r := LeadingSpaces(s), Strip(s);
      i + |r| <= |s| && s[i..i + |r|] == r &&
      (forall j :: 0 <= j < i ==> IsSpace(s[j])) &&
      (forall j :: i + |r| <= j < |s| ==> IsSpace(s[j])) &&
      (r == [] || (!IsSpace(r[0]) && !IsSpace(r[|r| - 1])))
  {
    var i, j := LeadingSpaces(s), StripEnd(s);
    var r := Strip(s);
    assert i + |r| == j;
    if r != [] {
      assert r[0] == s[i] && r[|r| - 1] == s[j - 1];
    }
  }

  /** A host string without whitespace at either end is kept as it is. */
  lemma StripClean(s: string)
    requires s == [] || (!IsSpace(s[0]) && !IsSpace(s[|s| - 1]))
    ensures Strip(s) == s
  {
    assert s[0..] == s;
    assert s[..|s| - 0] == s;
  }

  /** Fabric's dedupe of a host list: each host once, where it first occurs. */
  function Dedupe(xs: seq<string>): (d: seq<string>)
    ensures forall x :: x in d <==> x in xs
    ensures forall i, j :: 0 <= i < j < |d| ==> d[i] != d[j]
  {
    if xs == [] then []
    else
      var init := Dedupe(xs[..|xs| - 1]);
      var last := xs[|xs| - 1];
      assert xs == xs[..|xs| - 1] + [last];
      if last in init then init else init + [last]
  }

  /** Deduping a prefix of a list gives a prefix of the deduped list: hosts keep their first-occurrence order. */
  lemma {:induction false} DedupePrefix(xs: seq<string>, k: nat)
    requires k <= |xs|
    ensures Dedupe(xs[..k]) <= Dedupe(xs)
    decreases |xs|
  {
    if k < |xs| {
      var init := xs[..|xs| - 1];
      assert init[..k] == xs[..k];
      assert xs[..|xs|] == xs;
      DedupePrefix(init, k);
    } else {
      assert xs[..k] == xs;
    }
  }

  /** A list without repeats is its own dedupe. */
  lemma {:induction false} DedupeDistinct(xs: seq<string>)
    requires forall i, j :: 0 <= i < j < |xs| ==> xs[i] != xs[j]
    ensures Dedupe(xs) == xs
  {
    if xs != [] {
      var init := xs[..|xs| - 1];
      DedupeDistinct(init);
      assert xs[|xs| - 1] !in init;
      assert xs == init + [xs[|xs| - 1]];
    }
  }

  /** The stripped, deduped host list that `execute` runs a task on, in order. */
  function ExecuteHosts(hosts: seq<string>): seq<string>
  {
    Dedupe(seq(|hosts|, k requires 0 <= k < |hosts| => Strip(hosts[k])))
  }

  /** `execute` runs on each distinct stripped host string of the list once, and on nothing else. */
  lemma ExecuteHostsOnce(hosts: seq<string>)
    ensures var run := ExecuteHosts(hosts);
      (forall h :: h in run <==> exists k :: 0 <= k < |hosts| && Strip(hosts[k]) == h) &&
      (forall i, j :: 0 <= i < j < |run| ==> run[i] != run[j])
  {
    var stripped := seq(|hosts|, k requires 0 <= k < |hosts| => Strip(hosts[k]));
    forall h | h in ExecuteHosts(hosts)
      ensures exists k :: 0 <= k < |hosts| && Strip(hosts[k]) == h
    {
      var k :| 0 <= k < |stripped| && stripped[k] == h;
      assert Strip(hosts[k]) == h;
    }
    forall h | exists k :: 0 <= k < |hosts| && Strip(hosts[k]) == h
      ensures h in ExecuteHosts(hosts)
    {
      var k :| 0 <= k < |hosts| && Strip(hosts[k]) == h;
      assert stripped[k] == h;
    }
  }
}
