/**
 * How a Fabric task's commands reach the world.
 *
 * Every `run()`, `local()` and `get()` call becomes a Step recorded, in order, in the
 * trace of an Executor.  Whether a step fails is decided by an oracle (`failures`,
 * from step to the error text Fabric reports), and what a failure does to the task is
 * decided by the Policy the calling code wraps around the call: Fabric aborts the
 * task, a quiet or warn-only call carries on, or a `try`/`except` around the call
 * prints or raises its own message.
 *
 * The pure half is the reference meaning of a plan: Perform issues the plan's steps up
 * to and including the first one that stops the task; PerformStage runs one plan per
 * host of a `@parallel` task and fails the stage, after every host has finished, when
 * any host failed.
 */
module Execution {
  import opened Base
  import opened Percent

  /** Where a command runs: the control machine (`local()`) or a remote host (`run()`). */
  datatype Target = Control | Remote(host: string)

  datatype Step =
    | Exec(target: Target, cwd: Option<string>, text: string)  // a shell command, in `cd`/`lcd` directory cwd
    | Fetch(host: string, remotePath: string, localDir: string) // `get(remotePath, localDir)` from host

  /** What an exception handler does once it has built its message. */
  datatype Resume =
    | Continue        // print the message and go on with the next statement
    | ExitTask        // print the message, then `sys.exit(0)`
    | RaiseException  // `raise Exception(message)`

  /** An `except` clause: its message, optionally followed by the failure's own text. */
  datatype Handler = Handler(message: string, withCause: bool, resume: Resume)

  datatype Policy =
    | Abort             // Fabric's default: a failing command aborts the task
    | Warn              // `quiet`/`warn_only`: the failure is ignored
    | Handle(handler: Handler)

  datatype Error =
    | Aborted(step: Step, message: string)        // Fabric aborted on a failing step
    | Raised(exception: string, message: string)  // a Python exception of the named class
    | Exited                                      // `sys.exit(0)` after a reported failure
    | BadTemplate(cause: FormatError)             // `%` raised while building a command
    | HostsFailed(task: string)                   // a parallel task failed on some host

  datatype Action =
    | Do(step: Step, policy: Policy)
    | Note(message: string)   // a message printed to report a problem the task recovers from
    | Stop(error: Error)      // an exception raised by the task's own code

  /** The steps issued, the problem reports printed, and the error the task ended with, if any. */
  datatype Outcome = Outcome(issued: seq<Step>, reports: seq<string>, error: Option<Error>)

  const Done := Outcome([], [], None)

  /** What indexing an empty list raises. */
  const IndexOutOfRange := Raised("IndexError", "list index out of range")

  /**
   * `o1`, followed by `o2` unless `o1` stopped the task. This is the reference meaning of
   * sequencing, so its contract is close to its body; ThenAssoc, PerformAppend and
   * PerformIssuesPrefix are what is proved about it.
   */
  function Then(o1: Outcome, o2: Outcome): (o: Outcome)
    ensures o1.error.Some? ==> o == o1
    ensures o1.error.None? ==> o.issued == o1.issued + o2.issued && o.error == o2.error
  {
    if o1.error.Some? then o1 else Outcome(o1.issued + o2.issued, o1.reports + o2.reports, o2.error)
  }

  function FailureOf(failures: map<Step, string>, s: Step): Option<string>
  {
    if s in failures then Some(failures[s]) else None
  }

  /** What a failing step, whose failure text is `cause`, leaves behind under `p`. */
  function Failed(s: Step, cause: string, p: Policy): Outcome
  {
    match p
    case Abort => Outcome([s], [], Some(Aborted(s, cause)))
    case Warn => Outcome([s], [], None)
    case Handle(h) =>
      var m := h.message + (if h.withCause then cause else "");
      match h.resume
      case Continue => Outcome([s], [m], None)
      case ExitTask => Outcome([s], [m], Some(Exited))
      case RaiseException => Outcome([s], [], Some(Raised("Exception", m)))
  }

  /** The meaning of one action. */
  function Effect(a: Action, failures: map<Step, string>): Outcome
  {
    match a
    case Do(s, p) => if s in failures then Failed(s, failures[s], p) else Outcome([s], [], None)
    case Note(m) => Outcome([], [m], None)
    case Stop(e) => Outcome([], [], Some(e))
  }

  /** The meaning of a plan: its actions in order, up to the first one that stops the task. */
  function Perform(plan: seq<Action>, failures: map<Step, string>): Outcome
  {
    if plan == [] then Done else Then(Effect(plan[0], failures), Perform(plan[1..], failures))
  }

  /** The steps a plan would issue if nothing stopped it. */
  function StepsOf(plan: seq<Action>): seq<Step>
  {
    if plan == [] then [] else (if plan[0].Do? then [plan[0].step] else []) + StepsOf(plan[1..])
  }

  /** The policy of a `run(cmd, quiet=q)` call: quiet implies warn-only in Fabric. */
  function RunPolicy(quiet: bool): (p: Policy)
    ensures p.Warn? <==> quiet
    ensures p.Abort? <==> !quiet
  {
    if quiet then Warn else Abort
  }

  lemma ThenAssoc(a: Outcome, b: Outcome, c: Outcome)
    ensures Then(Then(a, b), c) == Then(a, Then(b, c))
  {
    if a.error.None? && b.error.None? {
      assert (a.issued + b.issued) + c.issued == a.issued + (b.issued + c.issued);
      assert (a.reports + b.reports) + c.reports == a.reports + (b.reports + c.reports);
    }
  }

  /** Issued steps stay within what two consecutive parts would issue if nothing stopped them. */
  lemma ThenPrefix(o1: Outcome, o2: Outcome, a: seq<Step>, b: seq<Step>)
    requires o1.issued <= a && (o1.error.None? ==> o1.issued == a) && o2.issued <= b
    ensures Then(o1, o2).issued <= a + b
  {
    if o1.error.None? {
      assert (a + b)[..|a| + |o2.issued|] == a + o2.issued;
    } else {
      assert (a + b)[..|o1.issued|] == a[..|o1.issued|];
    }
  }

  /** Two parts that issue their steps and print nothing, one after the other. */
  lemma CleanThen(a: seq<Step>, b: seq<Step>, o1: Outcome, o2: Outcome)
    requires o1 == Outcome(a, [], None) && o2 == Outcome(b, [], None)
    ensures Then(o1, o2) == Outcome(a + b, [], None)
  {
    assert o1.reports + o2.reports == [];
  }

  lemma ThenDone(a: Outcome)
    ensures Then(a, Done) == Outcome(a.issued, a.reports, a.error)
  {
    if a.error.None? {
      assert a.issued + [] == a.issued && a.reports + [] == a.reports;
    }
  }

  /** Running two plans one after the other means running the second unless the first stopped. */
  lemma {:induction false} PerformAppend(p: seq<Action>, q: seq<Action>, failures: map<Step, string>)
    ensures Perform(p + q, failures) == Then(Perform(p, failures), Perform(q, failures))
    decreases |p|
  {
    if p == [] {
      assert p + q == q;
      assert Done.issued + Perform(q, failures).issued == Perform(q, failures).issued;
      assert Done.reports + Perform(q, failures).reports == Perform(q, failures).reports;
    } else {
      assert (p + q)[0] == p[0];
      assert (p + q)[1..] == p[1..] + q;
      PerformAppend(p[1..], q, failures);
      ThenAssoc(Effect(p[0], failures), Perform(p[1..], failures), Perform(q, failures));
    }
  }

  /** Adding one action at the end of a plan. */
  lemma PerformSnoc(p: seq<Action>, a: Action, failures: map<Step, string>)
    ensures Perform(p + [a], failures) == Then(Perform(p, failures), Effect(a, failures))
  {
    PerformAppend(p, [a], failures);
    assert [a][1..] == [];
    ThenDone(Effect(a, failures));
  }

  lemma StepsOfAppend(p: seq<Action>, q: seq<Action>)
    ensures StepsOf(p + q) == StepsOf(p) + StepsOf(q)
    decreases |p|
  {
    if p == [] {
      assert p + q == q;
    } else {
      assert (p + q)[0] == p[0];
      assert (p + q)[1..] == p[1..] + q;
      StepsOfAppend(p[1..], q);
    }
  }

  /** The steps issued are a prefix of the plan's steps: nothing is issued out of order or after a stop. */
  lemma {:induction false} PerformIssuesPrefix(plan: seq<Action>, failures: map<Step, string>)
    ensures Perform(plan, failures).issued <= StepsOf(plan)
  {
    if plan != [] {
      PerformIssuesPrefix(plan[1..], failures);
      var e := Effect(plan[0], failures);
      if plan[0].Do? {
        assert e.issued == [plan[0].step];
      } else {
        assert e.issued == [];
      }
    }
  }

  /** A plan that ends without error has issued every one of its steps. */
  lemma {:induction false} PerformCompletes(plan: seq<Action>, failures: map<Step, string>)
    ensures Perform(plan, failures).error.None? ==> Perform(plan, failures).issued == StepsOf(plan)
  {
    if plan != [] {
      PerformCompletes(plan[1..], failures);
      var e := Effect(plan[0], failures);
      if e.error.None? && plan[0].Do? {
        assert e.issued == [plan[0].step];
      }
    }
  }

  /** If `o` ended in a Fabric abort, the abort names the last step issued, and the oracle fails that step with the abort's text. */
  predicate AbortNamesLast(o: Outcome, failures: map<Step, string>)
  {
    o.error.Some? && o.error.value.Aborted? ==>
      |o.issued| > 0 && o.issued[|o.issued| - 1] == o.error.value.step
      && o.error.value.step in failures && failures[o.error.value.step] == o.error.value.message
  }

  /** One action aborts only on the step it issues, and only when the oracle fails that step. */
  lemma EffectAbortNamesLast(a: Action, failures: map<Step, string>)
    requires a.Stop? ==> !a.error.Aborted?
    ensures var e := Effect(a, failures);
      AbortNamesLast(e, failures) && (e.error.Some? && e.error.value.Aborted? ==> e.issued == [e.error.value.step])
  {
  }

  /** A Fabric abort names the last step issued, and that step is one the oracle fails. */
  lemma {:induction false} PerformAbortsOnLast(plan: seq<Action>, failures: map<Step, string>)
    requires forall i :: 0 <= i < |plan| && plan[i].Stop? ==> !plan[i].error.Aborted?
    ensures AbortNamesLast(Perform(plan, failures), failures)
  {
    if plan != [] {
      forall i | 0 <= i < |plan[1..]| && plan[1..][i].Stop? ensures !plan[1..][i].error.Aborted? {
        assert plan[1..][i] == plan[i + 1];
      }
      PerformAbortsOnLast(plan[1..], failures);
      EffectAbortNamesLast(plan[0], failures);
      var e := Effect(plan[0], failures);
      var r := Perform(plan[1..], failures);
      if e.error.None? && r.error.Some? && r.error.value.Aborted? {
        assert (e.issued + r.issued)[|e.issued + r.issued| - 1] == r.issued[|r.issued| - 1];
      }
    }
  }

  /** Every action of the plan carries on after a failure. */
  predicate NeverStops(plan: seq<Action>)
  {
    forall i :: 0 <= i < |plan| ==>
      (plan[i].Do? && (plan[i].policy.Warn? || (plan[i].policy.Handle? && plan[i].policy.handler.resume.Continue?)))
      || plan[i].Note?
  }

  /** A plan that only warns issues all its steps and ends without error, whatever fails. */
  lemma {:induction false} NeverStopsCompletes(plan: seq<Action>, failures: map<Step, string>)
    requires NeverStops(plan)
    ensures Perform(plan, failures).error.None?
    ensures Perform(plan, failures).issued == StepsOf(plan)
  {
    if plan != [] {
      assert NeverStops(plan[1..]) by {
        forall i | 0 <= i < |plan[1..]| ensures plan[1..][i] == plan[i + 1] { }
      }
      NeverStopsCompletes(plan[1..], failures);
      assert plan[0] == plan[0];
      PerformCompletes(plan, failures);
    }
  }

  /** A plan whose steps all succeed issues all of them and ends as its Stop actions say. */
  lemma {:induction false} PerformNoFailures(plan: seq<Action>, failures: map<Step, string>)
    requires forall i :: 0 <= i < |plan| ==> !plan[i].Stop? && (plan[i].Do? ==> plan[i].step !in failures)
    ensures Perform(plan, failures).error.None?
    ensures Perform(plan, failures).issued == StepsOf(plan)
  {
    if plan != [] {
      assert !plan[0].Stop?;
      PerformNoFailures(plan[1..], failures);
      PerformCompletes(plan, failures);
    }
  }

  /**
   * When the first step to fail is the `i`-th, everything before it is issued quietly, then
   * that step, and the task ends as its policy says.
   */
  lemma FirstFailure(plan: seq<Action>, i: nat, failures: map<Step, string>)
    requires i < |plan| && plan[i].Do? && plan[i].step in failures
    requires forall j :: 0 <= j < i ==> plan[j].Do? && plan[j].step !in failures
    ensures var f := Failed(plan[i].step, failures[plan[i].step], plan[i].policy);
      Perform(plan[..i + 1], failures) == Outcome(StepsOf(plan[..i]) + [plan[i].step], f.reports, f.error)
  {
    var pre := plan[..i];
    assert forall j :: 0 <= j < |pre| ==> pre[j] == plan[j];
    PerformNoFailures(pre, failures);
    NoReportsWithoutFailures(pre, failures);
    PerformStep(plan, i, failures);
  }

  /**
   * In a plan of commands, when the first command to fail is one whose policy stops the task,
   * the task ends as that policy says, after exactly the commands before it.
   */
  lemma FirstFailureStopsAt(plan: seq<Action>, steps: seq<Step>, i: nat, failures: map<Step, string>)
    requires |plan| == |steps| && forall j :: 0 <= j < |plan| ==> plan[j].Do? && plan[j].step == steps[j]
    requires i < |plan| && steps[i] in failures && forall j :: 0 <= j < i ==> steps[j] !in failures
    requires Failed(steps[i], failures[steps[i]], plan[i].policy).error.Some?
    ensures var f := Failed(steps[i], failures[steps[i]], plan[i].policy);
      Perform(plan, failures) == Outcome(steps[..i + 1], f.reports, f.error)
  {
    FirstFailure(plan, i, failures);
    var pre := plan[..i];
    assert forall j :: 0 <= j < |pre| ==> pre[j].Do? && pre[j].step == steps[j];
    StepsOfDo(pre);
    assert StepsOf(pre) + [steps[i]] == steps[..i + 1];
    PerformStopped(plan, i + 1, failures);
  }

  /** A plan whose only stopping actions are Fabric aborts can end the task only with an abort. */
  lemma {:induction false} OnlyAborts(plan: seq<Action>, failures: map<Step, string>)
    requires forall i :: 0 <= i < |plan| ==> (plan[i].Do? && (plan[i].policy.Abort? || plan[i].policy.Warn?)) || plan[i].Note?
    ensures Perform(plan, failures).error.Some? ==> Perform(plan, failures).error.value.Aborted?
    ensures Perform(plan, failures).error.Some? ==> Perform(plan, failures).error.value.step in failures
  {
    if plan != [] {
      assert forall i :: 0 <= i < |plan[1..]| ==> plan[1..][i] == plan[i + 1];
      OnlyAborts(plan[1..], failures);
    }
  }

  // ---------------------------------------------------------------------------------------------
  // Parallel stages

  /** Two hosts' runs side by side: neither stops the other. */
  function Join(o1: Outcome, o2: Outcome): Outcome
  {
    Outcome(o1.issued + o2.issued, o1.reports + o2.reports, if o1.error.Some? then o1.error else o2.error)
  }

  /** Every host's plan run to its own end, in host order. */
  function RunAll(jobs: seq<seq<Action>>, failures: map<Step, string>): Outcome
  {
    if jobs == [] then Done else Join(RunAll(jobs[..|jobs| - 1], failures), Perform(jobs[|jobs| - 1], failures))
  }

  /** `execute` of a `@parallel` task: all hosts finish, then the task fails if any host failed. */
  function PerformStage(task: string, jobs: seq<seq<Action>>, failures: map<Step, string>): Outcome
  {
    var o := RunAll(jobs, failures);
    Outcome(o.issued, o.reports, if o.error.Some? then Some(HostsFailed(task)) else None)
  }

  /** The stage fails exactly when one of its hosts' plans ends with an error. */
  lemma {:induction false} RunAllFails(jobs: seq<seq<Action>>, failures: map<Step, string>)
    ensures RunAll(jobs, failures).error.Some? <==>
      exists i :: 0 <= i < |jobs| && Perform(jobs[i], failures).error.Some?
  {
    if jobs != [] {
      var init := jobs[..|jobs| - 1];
      RunAllFails(init, failures);
      if RunAll(init, failures).error.Some? {
        var i :| 0 <= i < |init| && Perform(init[i], failures).error.Some?;
        assert jobs[i] == init[i];
      }
      if exists i :: 0 <= i < |jobs| && Perform(jobs[i], failures).error.Some? {
        var i :| 0 <= i < |jobs| && Perform(jobs[i], failures).error.Some?;
        if i < |jobs| - 1 {
          assert init[i] == jobs[i];
        }
      }
    }
  }

  // ---------------------------------------------------------------------------------------------
  // The executor

  /** The transcript of everything the tasks ask Fabric to do. */
  class Executor {
    var trace: seq<Step>
    var reports: seq<string>
    /** Which steps fail, and with what error text. */
    const failures: map<Step, string>
    /** The local path `get` reports for a fetched file. */
    const localCopy: Step -> string

    constructor(failures: map<Step, string>, localCopy: Step -> string)
      ensures trace == [] && reports == []
      ensures this.failures == failures && this.localCopy == localCopy
    {
      trace := [];
      reports := [];
      this.failures := failures;
      this.localCopy := localCopy;
    }

    /** The trace and reports have grown by what `o` issued and reported. */
    twostate predicate Extended(o: Outcome)
      reads this
    {
      trace == old(trace) + o.issued && reports == old(reports) + o.reports
    }

    /** `run(text)` on a host or `local(text)`, in directory cwd; the failure text if it fails. */
    method Run(target: Target, cwd: Option<string>, text: string) returns (failure: Option<string>)
      modifies this
      ensures trace == old(trace) + [Exec(target, cwd, text)] && reports == old(reports)
      ensures failure == FailureOf(failures, Exec(target, cwd, text))
    {
      trace := trace + [Exec(target, cwd, text)];
      failure := FailureOf(failures, Exec(target, cwd, text));
    }

    /**
     * `get(remotePath, localDir)` from host, inside `quiet()`: the local paths it returns,
     * which are none when the transfer fails.
     */
    method Get(host: string, remotePath: string, localDir: string) returns (paths: seq<string>)
      modifies this
      ensures trace == old(trace) + [Fetch(host, remotePath, localDir)] && reports == old(reports)
      ensures paths == Fetched(failures, localCopy, Fetch(host, remotePath, localDir))
    {
      var s := Fetch(host, remotePath, localDir);
      trace := trace + [s];
      paths := Fetched(failures, localCopy, s);
    }

    /** A message a task prints to report a failure. */
    method Report(message: string)
      modifies this
      ensures trace == old(trace) && reports == old(reports) + [message]
    {
      reports := reports + [message];
    }
  }

  /** The list `get` returns: the local copy, or nothing when the transfer failed. */
  function Fetched(failures: map<Step, string>, localCopy: Step -> string, s: Step): (paths: seq<string>)
    ensures |paths| <= 1
    ensures paths == [] <==> s in failures
  {
    if s in failures then [] else [localCopy(s)]
  }

  /** The handling of a failed step `s` whose failure text is `cause`. */
  method Recover(ex: Executor, s: Step, cause: string, policy: Policy) returns (err: Option<Error>)
    modifies ex
    ensures ex.trace == old(ex.trace) && ex.reports == old(ex.reports) + Failed(s, cause, policy).reports
    ensures err == Failed(s, cause, policy).error
  {
    err := None;
    match policy
    case Abort =>
      err := Some(Aborted(s, cause));
    case Warn =>
    case Handle(h) =>
      var m := h.message + (if h.withCause then cause else "");
      match h.resume
      case Continue =>
        ex.Report(m);
      case ExitTask =>
        ex.Report(m);
        err := Some(Exited);
      case RaiseException =>
        err := Some(Raised("Exception", m));
  }

  /** One `run()`/`local()` call under `policy`. */
  method Attempt(ex: Executor, target: Target, cwd: Option<string>, text: string, policy: Policy)
    returns (err: Option<Error>)
    modifies ex
    ensures ex.Extended(Effect(Do(Exec(target, cwd, text), policy), ex.failures))
    ensures err == Effect(Do(Exec(target, cwd, text), policy), ex.failures).error
  {
    var failure := ex.Run(target, cwd, text);
    err := None;
    if failure.Some? {
      err := Recover(ex, Exec(target, cwd, text), failure.value, policy);
    }
  }

  /** One action of a plan. */
  method Apply(ex: Executor, a: Action) returns (err: Option<Error>)
    modifies ex
    ensures ex.Extended(Effect(a, ex.failures))
    ensures err == Effect(a, ex.failures).error
  {
    match a
    case Do(s, p) =>
      match s {
        case Exec(t, c, x) =>
          err := Attempt(ex, t, c, x, p);
        case Fetch(h, r, l) =>
          var paths := ex.Get(h, r, l);
          err := None;
          if paths == [] {
            err := Recover(ex, s, ex.failures[s], p);
          }
      }
    case Note(m) =>
      ex.Report(m);
      err := None;
    case Stop(e) =>
      err := Some(e);
      assert ex.trace == old(ex.trace) + [] && ex.reports == old(ex.reports) + [];
  }

  /** One more action of a plan. */
  lemma PerformStep(plan: seq<Action>, i: nat, failures: map<Step, string>)
    requires i < |plan|
    ensures Perform(plan[..i + 1], failures) == Then(Perform(plan[..i], failures), Effect(plan[i], failures))
  {
    assert plan[..i + 1] == plan[..i] + [plan[i]];
    PerformSnoc(plan[..i], plan[i], failures);
  }

  /** Once the task has stopped, the rest of the plan does nothing. */
  lemma PerformStopped(plan: seq<Action>, i: nat, failures: map<Step, string>)
    requires i <= |plan|
    requires Perform(plan[..i], failures).error.Some?
    ensures Perform(plan, failures) == Perform(plan[..i], failures)
  {
    assert plan == plan[..i] + plan[i..];
    PerformAppend(plan[..i], plan[i..], failures);
  }

  /** The actions of a plan, one after the other, until one stops the task. */
  method Execute(ex: Executor, plan: seq<Action>) returns (err: Option<Error>)
    modifies ex
    ensures ex.Extended(Perform(plan, ex.failures))
    ensures err == Perform(plan, ex.failures).error
  {
    err := None;
    var i := 0;
    assert plan[..0] == [];
    ghost var done := Done;
    while i < |plan|
      invariant 0 <= i <= |plan|
      invariant done == Perform(plan[..i], ex.failures)
      invariant ex.trace == old(ex.trace) + done.issued && ex.reports == old(ex.reports) + done.reports
      invariant done.error.None? && err.None?
    {
      ghost var t0, r0 := ex.trace, ex.reports;
      err := Apply(ex, plan[i]);
      ghost var e := Effect(plan[i], ex.failures);
      assert ex.trace == t0 + e.issued && ex.reports == r0 + e.reports;
      PerformStep(plan, i, ex.failures);
      AppendAssoc(old(ex.trace), done.issued, e.issued);
      AppendAssoc(old(ex.reports), done.reports, e.reports);
      done := Then(done, e);
      if err.Some? {
        PerformStopped(plan, i + 1, ex.failures);
        return;
      }
      i := i + 1;
    }
    assert plan[..i] == plan;
  }

  /** The plans of consecutive iterations of a loop, run one after the other. */
  function Flatten(jobs: seq<seq<Action>>): seq<Action>
  {
    if jobs == [] then [] else Flatten(jobs[..|jobs| - 1]) + jobs[|jobs| - 1]
  }

  lemma {:induction false} FlattenAppend(a: seq<seq<Action>>, b: seq<seq<Action>>)
    ensures Flatten(a + b) == Flatten(a) + Flatten(b)
    decreases |b|
  {
    if b == [] {
      assert a + b == a;
    } else {
      var b0 := b[..|b| - 1];
      assert (a + b)[..|a + b| - 1] == a + b0;
      assert (a + b)[|a + b| - 1] == b[|b| - 1];
      FlattenAppend(a, b0);
    }
  }

  /** A loop of three turns. */
  lemma FlattenThree(a: seq<Action>, b: seq<Action>, c: seq<Action>)
    ensures Flatten([a, b, c]) == a + b + c
  {
    assert [a][..0] == [];
    assert Flatten([a]) == a;
    assert [a, b][..1] == [a];
    assert Flatten([a, b]) == a + b;
    assert [a, b, c][..2] == [a, b];
  }

  /** One more iteration of the loop. */
  lemma PerformNextJob(jobs: seq<seq<Action>>, i: nat, failures: map<Step, string>)
    requires i < |jobs|
    ensures Perform(Flatten(jobs[..i + 1]), failures) == Then(Perform(Flatten(jobs[..i]), failures), Perform(jobs[i], failures))
  {
    assert jobs[..i + 1][..i] == jobs[..i] && jobs[..i + 1][i] == jobs[i];
    PerformAppend(Flatten(jobs[..i]), jobs[i], failures);
  }

  /** Once an iteration has stopped the task, the later iterations do nothing. */
  lemma FlattenStopped(jobs: seq<seq<Action>>, i: nat, failures: map<Step, string>)
    requires i < |jobs|
    requires Perform(Flatten(jobs[..i + 1]), failures).error.Some?
    ensures Perform(Flatten(jobs), failures) == Perform(Flatten(jobs[..i + 1]), failures)
  {
    assert jobs == jobs[..i + 1] + jobs[i + 1..];
    FlattenAppend(jobs[..i + 1], jobs[i + 1..]);
    PerformAppend(Flatten(jobs[..i + 1]), Flatten(jobs[i + 1..]), failures);
  }

  /** A loop whose turns are plans, one after the other, until one of them stops the task. */
  method ExecuteAll(ex: Executor, jobs: seq<seq<Action>>) returns (err: Option<Error>)
    modifies ex
    ensures ex.Extended(Perform(Flatten(jobs), ex.failures))
    ensures err == Perform(Flatten(jobs), ex.failures).error
  {
    err := None;
    var i := 0;
    assert jobs[..0] == [];
    ghost var done := Done;
    while i < |jobs|
      invariant 0 <= i <= |jobs|
      invariant done == Perform(Flatten(jobs[..i]), ex.failures)
      invariant ex.trace == old(ex.trace) + done.issued && ex.reports == old(ex.reports) + done.reports
      invariant done.error.None? && err.None?
    {
      err := Execute(ex, jobs[i]);
      ghost var o := Perform(jobs[i], ex.failures);
      AppendAssoc(old(ex.trace), done.issued, o.issued);
      AppendAssoc(old(ex.reports), done.reports, o.reports);
      PerformNextJob(jobs, i, ex.failures);
      done := Then(done, o);
      if err.Some? {
        FlattenStopped(jobs, i, ex.failures);
        return;
      }
      i := i + 1;
    }
    assert jobs[..i] == jobs;
  }

  /** An action followed by a plan. */
  lemma PerformCons(a: Action, rest: seq<Action>, failures: map<Step, string>)
    ensures Perform([a] + rest, failures) == Then(Effect(a, failures), Perform(rest, failures))
  {
    assert ([a] + rest)[0] == a && ([a] + rest)[1..] == rest;
  }

  /** Steps that all succeed print nothing. */
  lemma {:induction false} NoReportsWithoutFailures(plan: seq<Action>, failures: map<Step, string>)
    requires forall i :: 0 <= i < |plan| ==> plan[i].Do? && plan[i].step !in failures
    ensures Perform(plan, failures).reports == []
  {
    if plan != [] {
      assert forall i :: 0 <= i < |plan[1..]| ==> plan[1..][i] == plan[i + 1];
      NoReportsWithoutFailures(plan[1..], failures);
      assert plan[0].Do? && plan[0].step !in failures;
    }
  }

  /** The steps of a plan made only of commands. */
  lemma {:induction false} StepsOfDo(plan: seq<Action>)
    requires forall i :: 0 <= i < |plan| ==> plan[i].Do?
    ensures |StepsOf(plan)| == |plan|
    ensures forall i :: 0 <= i < |plan| ==> StepsOf(plan)[i] == plan[i].step
  {
    if plan != [] {
      assert forall i :: 0 <= i < |plan[1..]| ==> plan[1..][i] == plan[i + 1];
      StepsOfDo(plan[1..]);
      assert plan[0].Do?;
    }
  }

  /** The plan of a loop issuing each of `texts` in turn, all with the same target, directory and policy. */
  function Commands(target: Target, cwd: Option<string>, texts: seq<string>, policy: Policy): (plan: seq<Action>)
    ensures |plan| == |texts|
    ensures forall i :: 0 <= i < |texts| ==> plan[i] == Do(Exec(target, cwd, texts[i]), policy)
  {
    if texts == [] then [] else [Do(Exec(target, cwd, texts[0]), policy)] + Commands(target, cwd, texts[1..], policy)
  }

  /** The steps of a command loop are its commands, in order. */
  lemma {:induction false} CommandsSteps(target: Target, cwd: Option<string>, texts: seq<string>, policy: Policy)
    ensures |StepsOf(Commands(target, cwd, texts, policy))| == |texts|
    ensures forall i :: 0 <= i < |texts| ==> StepsOf(Commands(target, cwd, texts, policy))[i] == Exec(target, cwd, texts[i])
  {
    if texts != [] {
      CommandsSteps(target, cwd, texts[1..], policy);
      var p := Commands(target, cwd, texts, policy);
      assert p[1..] == Commands(target, cwd, texts[1..], policy);
      assert StepsOf(p) == [Exec(target, cwd, texts[0])] + StepsOf(p[1..]);
    }
  }
}
