/**
 * The text half of `_build_docs`: the task list printed by `fab --shortlist` and each
 * task's `fab -d` description become a section each, and the README keeps its text up
 * to the first "Information on tasks" heading, followed by that heading and the sections.
 * The shell calls and the README file are inputs and output here.
 */
module ReadmeDocs {
  import opened Base

  /** The heading the generated sections follow. */
  const Delimiter := "##Information on tasks:\n\n"

  /** The first index at or after `i` where `d` occurs in `s`. */
  function Find(s: string, d: string, i: nat): (r: Option<nat>)
    requires |d| > 0
    ensures r.Some? ==> i <= r.value && OccursAt(s, d, r.value)
    ensures r.Some? ==> forall k :: i <= k < r.value ==> !OccursAt(s, d, k)
    ensures r.None? ==> forall k :: i <= k ==> !OccursAt(s, d, k)
    decreases |s| - i
  {
    if i + |d| > |s| then None
    else if s[i..i + |d|] == d then Some(i)
    else Find(s, d, i + 1)
  }

  /** `r.split(Delimiter)[0]`: the text before the first delimiter, or all of it. */
  function Top(r: string): (t: string)
    ensures t <= r
    ensures t == r || OccursAt(r, Delimiter, |t|)
    ensures forall k :: !OccursAt(t, Delimiter, k)
  {
    match Find(r, Delimiter, 0)
    case None => r
    case Some(j) =>
      assert forall k: nat :: OccursAt(r[..j], Delimiter, k) ==> OccursAt(r, Delimiter, k) && k < j by {
        forall k: nat | OccursAt(r[..j], Delimiter, k) ensures OccursAt(r, Delimiter, k) && k < j {
          assert r[..j][k..k + |Delimiter|] == r[k..k + |Delimiter|];
        }
      }
      r[..j]
  }

  /** The README written back: its top, the delimiter, then the generated sections. */
  function Rewrite(readme: string, docText: string): string
  {
    Top(readme) + Delimiter + docText
  }

  /** The delimiter opens with two '#' and has no other. */
  lemma DelimiterHashes()
    ensures |Delimiter| > 2 && Delimiter[0] == '#' && Delimiter[1] == '#'
    ensures forall i :: 2 <= i < |Delimiter| ==> Delimiter[i] != '#'
  {
  }

  /** The delimiter cannot start inside a text and end inside a copy of itself that follows the text. */
  lemma NoStraddle(t: string, rest: string, k: nat)
    requires k < |t| && |t| < k + |Delimiter|
    ensures !OccursAt(t + Delimiter + rest, Delimiter, k)
  {
    var s := t + Delimiter + rest;
    var d := Delimiter;
    DelimiterHashes();
    var l := |t| - k;
    if l == 1 {
      assert s[k..k + |d|][2] == s[|t| + 1] == d[1] != d[2];
    } else {
      assert s[k..k + |d|][l] == s[|t|] == d[0] != d[l];
    }
  }

  /** The top of a rewritten README is the top it was built from. */
  lemma TopOfRewrite(readme: string, docText: string)
    ensures Top(Rewrite(readme, docText)) == Top(readme)
  {
    var t := Top(readme);
    var s := Rewrite(readme, docText);
    assert s[|t|..|t| + |Delimiter|] == Delimiter;
    assert OccursAt(s, Delimiter, |t|);
    forall k: nat | k < |t| ensures !OccursAt(s, Delimiter, k) {
      if k + |Delimiter| <= |t| {
        assert s[k..k + |Delimiter|] == t[k..k + |Delimiter|];
        assert !OccursAt(t, Delimiter, k);
      } else {
        NoStraddle(t, docText, k);
      }
    }
    var j := Find(s, Delimiter, 0);
    assert j == Some(|t|);
    assert s[..|t|] == t;
  }

  /** Rewriting again replaces the sections and keeps the top: with the same sections, nothing changes. */
  lemma RewriteTwice(readme: string, first: string, second: string)
    ensures Rewrite(Rewrite(readme, first), second) == Rewrite(readme, second)
    ensures Rewrite(Rewrite(readme, first), first) == Rewrite(readme, first)
  {
    TopOfRewrite(readme, first);
  }

  /** A README without the delimiter is kept whole, and the sections are appended after it. */
  lemma RewriteAppends(readme: string, docText: string)
    requires forall k :: !OccursAt(readme, Delimiter, k)
    ensures Rewrite(readme, docText) == readme + Delimiter + docText
  {
  }

  /** A README that has the delimiter loses everything from its first delimiter on. */
  lemma RewriteTruncates(readme: string, docText: string, j: nat)
    requires OccursAt(readme, Delimiter, j) && forall k: nat :: k < j ==> !OccursAt(readme, Delimiter, k)
    ensures Rewrite(readme, docText) == readme[..j] + Delimiter + docText
  {
    var f := Find(readme, Delimiter, 0);
    assert f == Some(j);
  }

  // ---------------------------------------------------------------------------------------------
  // The task list and the sections

  /** `s.split(sep)`: the pieces between separators, at least one. */
  function Split(s: string, sep: char): (parts: seq<string>)
    ensures |parts| > 0
    ensures forall i :: 0 <= i < |parts| ==> sep !in parts[i]
  {
    if s == [] then [[]]
    else
      var rest := Split(s[1..], sep);
      if s[0] == sep then [[]] + rest else [[s[0]] + rest[0]] + rest[1..]
  }

  /** `sep.join(parts)`. */
  function Join(parts: seq<string>, sep: char): string
  {
    if parts == [] then [] else if |parts| == 1 then parts[0] else parts[0] + [sep] + Join(parts[1..], sep)
  }

  /** Splitting loses nothing: joining the pieces with the separator gives the text back. */
  lemma {:induction false} JoinSplit(s: string, sep: char)
    ensures Join(Split(s, sep), sep) == s
  {
    if s != [] {
      var rest := Split(s[1..], sep);
      JoinSplit(s[1..], sep);
      if s[0] == sep {
        assert Split(s, sep) == [[]] + rest;
        assert Join([[]] + rest, sep) == [] + [sep] + Join(rest, sep);
        assert s == [sep] + s[1..];
      } else {
        var parts := [[s[0]] + rest[0]] + rest[1..];
        assert Split(s, sep) == parts;
        assert parts[1..] == rest[1..];
        if |rest| == 1 {
          assert Join(rest, sep) == rest[0];
          assert s == [s[0]] + s[1..];
        } else {
          assert Join(rest, sep) == rest[0] + [sep] + Join(rest[1..], sep);
          assert Join(parts, sep) == [s[0]] + rest[0] + [sep] + Join(rest[1..], sep);
          assert s == [s[0]] + s[1..];
        }
      }
    }
  }

  /** `s.replace(pat, rep)`: every occurrence of `pat`, scanned from the left without overlaps, replaced. */
  function ReplaceAll(s: string, pat: string, rep: string): string
    requires |pat| > 0
    decreases |s|
  {
    if |s| < |pat| then s
    else if s[..|pat|] == pat then rep + ReplaceAll(s[|pat|..], pat, rep)
    else [s[0]] + ReplaceAll(s[1..], pat, rep)
  }

  /** A text in which `pat` does not occur is left as it is. */
  lemma {:induction false} ReplaceAbsent(s: string, pat: string, rep: string)
    requires |pat| > 0
    requires forall k :: !OccursAt(s, pat, k)
    ensures ReplaceAll(s, pat, rep) == s
    decreases |s|
  {
    if |s| >= |pat| {
      assert !OccursAt(s, pat, 0);
      assert s[0..|pat|] == s[..|pat|];
      forall k: nat ensures !OccursAt(s[1..], pat, k) {
        if k + |pat| <= |s| - 1 {
          assert s[1..][k..k + |pat|] == s[k + 1..k + 1 + |pat|];
          assert !OccursAt(s, pat, k + 1);
        }
      }
      ReplaceAbsent(s[1..], pat, rep);
      assert [s[0]] + s[1..] == s;
    }
  }

  /** The line `fab -d` prints above a task's description. */
  function Header(task: string): string
  {
    "Displaying detailed information for task '" + task + "':\n\n"
  }

  /** A task's description, dedented by four spaces, without the header line. */
  function CleanDoc(task: string, output: string): string
  {
    ReplaceAll(ReplaceAll(output, "\n    ", "\n"), Header(task), "")
  }

  /** A description with no indented line and no header line is kept as `fab -d` printed it. */
  lemma CleanDocPlain(task: string, output: string)
    requires forall k :: !OccursAt(output, "\n    ", k)
    requires forall k :: !OccursAt(output, Header(task), k)
    ensures CleanDoc(task, output) == output
  {
    ReplaceAbsent(output, "\n    ", "\n");
    ReplaceAbsent(output, Header(task), "");
  }

  datatype TaskDoc = TaskDoc(task: string, doc: string)

  /** The `task_docs` list: one entry per task, from `describe(t)`, the output of `fab -d t`. */
  function TaskDocs(tasks: seq<string>, describe: string -> string): (docs: seq<TaskDoc>)
    ensures |docs| == |tasks|
    ensures forall i :: 0 <= i < |tasks| ==> docs[i] == TaskDoc(tasks[i], CleanDoc(tasks[i], describe(tasks[i])))
  {
    seq(|tasks|, i requires 0 <= i < |tasks| => TaskDoc(tasks[i], CleanDoc(tasks[i], describe(tasks[i]))))
  }

  /** One task's section: its name as a code heading, a blank line, its description, a blank line. */
  function Section(td: TaskDoc): string
  {
    "###`" + td.task + "`" + "\n\n" + td.doc + "\n\n"
  }

  /** The sections of all tasks, in task order. */
  function DocText(docs: seq<TaskDoc>): string
  {
    if docs == [] then [] else DocText(docs[..|docs| - 1]) + Section(docs[|docs| - 1])
  }

  /** The sections of two lists of tasks are the sections of the first list, then of the second. */
  lemma {:induction false} DocTextAppend(a: seq<TaskDoc>, b: seq<TaskDoc>)
    ensures DocText(a + b) == DocText(a) + DocText(b)
    decreases |b|
  {
    if b == [] {
      assert a + b == a;
    } else {
      var b0, last := b[..|b| - 1], b[|b| - 1];
      var ab := a + b;
      assert ab[..|ab| - 1] == a + b0;
      assert ab[|ab| - 1] == last;
      assert DocText(ab) == DocText(a + b0) + Section(last);
      DocTextAppend(a, b0);
      AppendAssoc(DocText(a), DocText(b0), Section(last));
    }
  }

  /** The README text `_build_docs` writes, from the old README and the outputs of the two `fab` calls. */
  method BuildDocs(readme: string, shortlist: string, describe: string -> string) returns (text: string)
    ensures text == Rewrite(readme, DocText(TaskDocs(Split(shortlist, '\n'), describe)))
  {
    var tasks := Split(shortlist, '\n');
    var taskDocs: seq<TaskDoc> := [];
    for i := 0 to |tasks|
      invariant taskDocs == TaskDocs(tasks[..i], describe)
    {
      var t := tasks[i];
      var doc := ReplaceAll(describe(t), "\n    ", "\n");
      doc := ReplaceAll(doc, Header(t), "");
      taskDocs := taskDocs + [TaskDoc(t, doc)];
    }
    assert tasks[..|tasks|] == tasks;
    var docText := "";
    for i := 0 to |taskDocs|
      invariant docText == DocText(taskDocs[..i])
    {
      var td := taskDocs[i];
      var section := "###`" + td.task + "`";
      section := section + "\n\n";
      section := section + td.doc;
      section := section + "\n\n";
      assert taskDocs[..i + 1][..i] == taskDocs[..i];
      docText := docText + section;
    }
    assert taskDocs[..|taskDocs|] == taskDocs;
    text := Top(readme) + Delimiter + docText;
  }
}
