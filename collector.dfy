/** The activity collector's bookkeeping: the git counts it builds from `git log
    --oneline` output, the merge of a fresh snapshot into the day's stored JSON file,
    and the `collectionCount` rule of its `main`. The ActivityWatch data and its
    summary are carried as opaque JSON text; the git output, the clock and the stored
    file are parameters. */
module Collector {
  import opened Text

  /** `{project, message}`: one line of `git log --oneline`. */
  datatype Commit = Commit(project: string, message: string)

  /** The `gitActivity` object. */
  datatype GitActivity = GitActivity(totalCommits: nat, byProject: map<string, nat>, commits: seq<Commit>)

  /** `byProject[p] || 0`. */
  function Get(counts: map<string, nat>, p: string): nat {
    if p in counts then counts[p] else 0
  }

  /** How many of the commits belong to project `p`. */
  function CountOf(commits: seq<Commit>, p: string): nat
    decreases |commits|
  {
    if commits == [] then 0
    else (if commits[0].project == p then 1 else 0) + CountOf(commits[1..], p)
  }

  /** The counters agree with the list: the total is its length and each project's
      count is the number of its commits. */
  ghost predicate GitConsistent(g: GitActivity) {
    g.totalCommits == |g.commits| && forall p :: Get(g.byProject, p) == CountOf(g.commits, p)
  }

  lemma {:induction false} CountOfAppend(a: seq<Commit>, b: seq<Commit>, p: string)
    ensures CountOf(a + b, p) == CountOf(a, p) + CountOf(b, p)
    decreases |a|
  {
    if a == [] {
      assert a + b == b;
    } else {
      assert (a + b)[0] == a[0] && (a + b)[1..] == a[1..] + b;
      CountOfAppend(a[1..], b, p);
    }
  }

  // ---------------------------------------------------------------- git log output

  /** The lines that are not blank once trimmed, in order. */
  function NonBlank(lines: seq<string>): (r: seq<string>)
    ensures |r| <= |lines|
    ensures forall l :: l in r <==> l in lines && Trim(l) != []
    decreases |lines|
  {
    if lines == [] then []
    else (if Trim(lines[0]) != [] then [lines[0]] else []) + NonBlank(lines[1..])
  }

  /** The commit lines of one project's trimmed output. */
  function CommitLines(output: string): seq<string> {
    NonBlank(Split(output, '\n'))
  }

  /** One `{project, message}` per line, in order. */
  function Tagged(project: string, lines: seq<string>): (r: seq<Commit>)
    ensures |r| == |lines|
    ensures forall i :: 0 <= i < |r| ==> r[i] == Commit(project, lines[i])
  {
    seq(|lines|, i requires 0 <= i < |lines| => Commit(project, lines[i]))
  }

  /** One configured project and what `git log` gave for it: `None` when the command
      threw. */
  datatype ProjectRun = ProjectRun(name: string, output: Option<string>)

  /** The trimmed output when there is any. */
  function Output(run: ProjectRun): string {
    match run.output
    case None => []
    case Some(out) => Trim(out)
  }

  /** The commits one project contributes. */
  function RunCommits(run: ProjectRun): seq<Commit> {
    if Output(run) == [] then [] else Tagged(run.name, CommitLines(Output(run)))
  }

  /** One iteration of `getGitActivity`'s loop, as a value. */
  function ProjectStep(acc: GitActivity, run: ProjectRun): GitActivity {
    var out := Output(run);
    if out == [] then acc else Counted(acc, run.name, CommitLines(out))
  }

  /** A project's lines recorded: its count set, the total raised, one commit per line
      pushed. */
  function Counted(acc: GitActivity, project: string, lines: seq<string>): GitActivity {
    GitActivity(acc.totalCommits + |lines|, acc.byProject[project := |lines|],
                acc.commits + Tagged(project, lines))
  }

  function GitFrom(acc: GitActivity, runs: seq<ProjectRun>): GitActivity
    decreases |runs|
  {
    if runs == [] then acc else GitFrom(ProjectStep(acc, runs[0]), runs[1..])
  }

  /** `getGitActivity()` as a value. */
  function GitOf(runs: seq<ProjectRun>): GitActivity {
    GitFrom(GitActivity(0, map[], []), runs)
  }

  /** Every project's commits, project after project. */
  function AllCommits(runs: seq<ProjectRun>): seq<Commit>
    decreases |runs|
  {
    if runs == [] then [] else RunCommits(runs[0]) + AllCommits(runs[1..])
  }

  predicate DistinctNames(runs: seq<ProjectRun>) {
    forall i, j :: 0 <= i < j < |runs| ==> runs[i].name != runs[j].name
  }

  /** `getGitActivity`: for each project with non-empty trimmed output, its non-blank
      lines become commits, its count and a share of the total. */
  method GetGitActivity(runs: seq<ProjectRun>) returns (g: GitActivity)
    ensures g == GitOf(runs)
  {
    g := GitActivity(0, map[], []);
    var i := 0;
    while i < |runs|
      invariant 0 <= i <= |runs|
      invariant GitFrom(g, runs[i..]) == GitOf(runs)
    {
      GitFromAt(g, runs, i);
      g := CountProject(g, runs[i]);
      i := i + 1;
    }
  }

  /** One iteration of `getGitActivity`'s loop: the trimmed output, when not empty, is
      split into lines, the blank ones dropped, and the rest counted and recorded. */
  method CountProject(g: GitActivity, run: ProjectRun) returns (r: GitActivity)
    ensures r == ProjectStep(g, run)
  {
    r := g;
    var output := Output(run);
    if output != [] {
      var lines := CommitLines(output);
      r := Counted(r, run.name, lines);
    }
  }

  lemma GitFromAt(acc: GitActivity, runs: seq<ProjectRun>, i: nat)
    requires i < |runs|
    ensures GitFrom(acc, runs[i..]) == GitFrom(ProjectStep(acc, runs[i]), runs[i + 1..])
  {
    assert runs[i..][0] == runs[i] && runs[i..][1..] == runs[i + 1..];
  }

  /** The commit list is every project's lines in order, and the total is its length. */
  lemma {:induction false} GitFromCommits(acc: GitActivity, runs: seq<ProjectRun>)
    requires acc.totalCommits == |acc.commits|
    ensures GitFrom(acc, runs).commits == acc.commits + AllCommits(runs)
    ensures GitFrom(acc, runs).totalCommits == |GitFrom(acc, runs).commits|
    decreases |runs|
  {
    if runs == [] {
      assert acc.commits + [] == acc.commits;
    } else {
      var next := ProjectStep(acc, runs[0]);
      assert next.commits == acc.commits + RunCommits(runs[0]);
      GitFromCommits(next, runs[1..]);
      Concat3(acc.commits, RunCommits(runs[0]), AllCommits(runs[1..]));
    }
  }

  /** Regrouping a concatenation of three sequences. */
  lemma Concat3<T>(a: seq<T>, b: seq<T>, c: seq<T>)
    ensures (a + b) + c == a + (b + c)
  {
  }

  lemma {:induction false} CountOfTagged(project: string, lines: seq<string>, p: string)
    ensures CountOf(Tagged(project, lines), p) == if p == project then |lines| else 0
    decreases |lines|
  {
    if lines != [] {
      assert Tagged(project, lines)[1..] == Tagged(project, lines[1..]);
      CountOfTagged(project, lines[1..], p);
    }
  }

  /** With distinct project names the counters agree with the list: each project's
      count is its number of non-blank output lines. */
  lemma {:induction false} GitFromConsistent(acc: GitActivity, runs: seq<ProjectRun>)
    requires GitConsistent(acc) && DistinctNames(runs)
    requires forall i :: 0 <= i < |runs| ==> runs[i].name !in acc.byProject && CountOf(acc.commits, runs[i].name) == 0
    ensures GitConsistent(GitFrom(acc, runs))
    decreases |runs|
  {
    if runs != [] {
      var next := ProjectStep(acc, runs[0]);
      ProjectStepConsistent(acc, runs[0]);
      forall i | 0 <= i < |runs[1..]|
        ensures runs[1..][i].name !in next.byProject && CountOf(next.commits, runs[1..][i].name) == 0
      {
        assert runs[1..][i] == runs[i + 1];
        assert runs[0].name != runs[i + 1].name;
        if Output(runs[0]) != [] {
          CountOfAppend(acc.commits, Tagged(runs[0].name, CommitLines(Output(runs[0]))), runs[i + 1].name);
          CountOfTagged(runs[0].name, CommitLines(Output(runs[0])), runs[i + 1].name);
        }
      }
      GitFromConsistent(next, runs[1..]);
    }
  }

  lemma ProjectStepConsistent(acc: GitActivity, run: ProjectRun)
    requires GitConsistent(acc) && run.name !in acc.byProject && CountOf(acc.commits, run.name) == 0
    ensures GitConsistent(ProjectStep(acc, run))
  {
    if Output(run) != [] {
      CountedConsistent(acc, run.name, CommitLines(Output(run)));
    }
  }

  lemma CountedConsistent(acc: GitActivity, project: string, lines: seq<string>)
    requires GitConsistent(acc) && project !in acc.byProject && CountOf(acc.commits, project) == 0
    ensures GitConsistent(Counted(acc, project, lines))
  {
    var next := Counted(acc, project, lines);
    forall p ensures Get(next.byProject, p) == CountOf(next.commits, p) {
      CountOfAppend(acc.commits, Tagged(project, lines), p);
      CountOfTagged(project, lines, p);
    }
  }

  /** `getGitActivity` keeps its counters consistent: one commit per non-blank line, in
      order, the total their number and each (distinctly named) project's count its own
      number of lines. */
  lemma GitOfSpec(runs: seq<ProjectRun>)
    requires DistinctNames(runs)
    ensures GitOf(runs).commits == AllCommits(runs)
    ensures GitConsistent(GitOf(runs))
  {
    GitFromCommits(GitActivity(0, map[], []), runs);
    assert [] + AllCommits(runs) == AllCommits(runs);
    GitFromConsistent(GitActivity(0, map[], []), runs);
  }

  // ---------------------------------------------------------------- merging

  /** The day's activity file: date, last update, run count, ActivityWatch data and its
      summary (JSON text), the git activity and the manual tasks (JSON text each). A
      missing `collectionCount` is 0. */
  datatype Snapshot = Snapshot(date: string, lastUpdated: string, collectionCount: nat,
                               activityWatch: string, git: GitActivity, summary: string,
                               manualTasks: seq<string>)

  /** The messages of the stored commits: the set `mergeData` builds once. */
  function Messages(commits: seq<Commit>): set<string> {
    set c | c in commits :: c.message
  }

  /** One commit appended, with both counters bumped. */
  function Appended(g: GitActivity, c: Commit): GitActivity {
    GitActivity(g.totalCommits + 1, g.byProject[c.project := Get(g.byProject, c.project) + 1], g.commits + [c])
  }

  /** The commit loop of `mergeData`: an incoming commit is appended unless its message
      is in `seen`, the set of messages stored before the call. */
  function MergeCommits(g: GitActivity, seen: set<string>, incoming: seq<Commit>): GitActivity
    decreases |incoming|
  {
    if incoming == [] then g
    else
      var c := incoming[0];
      MergeCommits(if c.message in seen then g else Appended(g, c), seen, incoming[1..])
  }

  /** The incoming commits whose messages are not in `seen`, in order. */
  function Fresh(incoming: seq<Commit>, seen: set<string>): (r: seq<Commit>)
    ensures forall c :: c in r <==> c in incoming && c.message !in seen
    decreases |incoming|
  {
    if incoming == [] then []
    else (if incoming[0].message in seen then [] else [incoming[0]]) + Fresh(incoming[1..], seen)
  }

  /** What the commit loop does: the stored commits keep their places, the fresh ones
      follow in incoming order, and the counters grow by exactly the fresh commits. */
  lemma {:induction false} MergeCommitsSpec(g: GitActivity, seen: set<string>, incoming: seq<Commit>)
    ensures MergeCommits(g, seen, incoming).commits == g.commits + Fresh(incoming, seen)
    ensures MergeCommits(g, seen, incoming).totalCommits == g.totalCommits + |Fresh(incoming, seen)|
    ensures forall p :: Get(MergeCommits(g, seen, incoming).byProject, p)
                     == Get(g.byProject, p) + CountOf(Fresh(incoming, seen), p)
    decreases |incoming|
  {
    if incoming == [] {
      assert g.commits + [] == g.commits;
    } else {
      var c := incoming[0];
      var next := if c.message in seen then g else Appended(g, c);
      MergeCommitsSpec(next, seen, incoming[1..]);
      MergeCommitsStep(g, seen, incoming, next);
    }
  }

  lemma MergeCommitsStep(g: GitActivity, seen: set<string>, incoming: seq<Commit>, next: GitActivity)
    requires incoming != []
    requires next == if incoming[0].message in seen then g else Appended(g, incoming[0])
    ensures next.commits + Fresh(incoming[1..], seen) == g.commits + Fresh(incoming, seen)
    ensures next.totalCommits + |Fresh(incoming[1..], seen)| == g.totalCommits + |Fresh(incoming, seen)|
    ensures forall p :: Get(next.byProject, p) + CountOf(Fresh(incoming[1..], seen), p)
                     == Get(g.byProject, p) + CountOf(Fresh(incoming, seen), p)
  {
    var c, rest := incoming[0], Fresh(incoming[1..], seen);
    FreshCons(incoming, seen);
    if c.message !in seen {
      Concat3(g.commits, [c], rest);
      forall p ensures Get(next.byProject, p) + CountOf(rest, p) == Get(g.byProject, p) + CountOf([c] + rest, p) {
        CountOfCons(c, rest, p);
      }
    } else {
      assert [] + rest == rest;
    }
  }

  lemma FreshCons(incoming: seq<Commit>, seen: set<string>)
    requires incoming != []
    ensures Fresh(incoming, seen)
         == (if incoming[0].message in seen then [] else [incoming[0]]) + Fresh(incoming[1..], seen)
  {
  }

  lemma CountOfCons(c: Commit, rest: seq<Commit>, p: string)
    ensures CountOf([c] + rest, p) == (if c.project == p then 1 else 0) + CountOf(rest, p)
  {
    assert ([c] + rest)[0] == c && ([c] + rest)[1..] == rest;
  }

  /** Appending commits keeps the counters consistent with the list. */
  lemma MergePreservesConsistency(g: GitActivity, seen: set<string>, incoming: seq<Commit>)
    requires GitConsistent(g)
    ensures GitConsistent(MergeCommits(g, seen, incoming))
  {
    MergeCommitsSpec(g, seen, incoming);
    var r := MergeCommits(g, seen, incoming);
    forall p ensures Get(r.byProject, p) == CountOf(r.commits, p) {
      CountOfAppend(g.commits, Fresh(incoming, seen), p);
    }
  }

  /** The set is built once, before the loop: two equal new messages in one batch are
      both appended. */
  lemma BatchDuplicatesKept(g: GitActivity, seen: set<string>, c: Commit)
    requires c.message !in seen
    ensures MergeCommits(g, seen, [c, c]).commits == g.commits + [c, c]
  {
    MergeCommitsSpec(g, seen, [c, c]);
    FreshCons([c, c], seen);
    assert [c, c][1..] == [c];
    FreshCons([c], seen);
    assert [c][1..] == [];
  }

  lemma {:induction false} AllSeenUnchanged(g: GitActivity, seen: set<string>, incoming: seq<Commit>)
    requires forall c :: c in incoming ==> c.message in seen
    ensures MergeCommits(g, seen, incoming) == g
    decreases |incoming|
  {
    if incoming != [] {
      assert incoming[0] in incoming;
      AllSeenUnchanged(g, seen, incoming[1..]);
    }
  }

  /** Merging the same git activity twice appends nothing the second time: a collector
      run that sees the same commits again leaves the commits and counters alone. */
  lemma MergeTwice(g: GitActivity, incoming: seq<Commit>)
    ensures var once := MergeCommits(g, Messages(g.commits), incoming);
      MergeCommits(once, Messages(once.commits), incoming) == once
  {
    var once := MergeCommits(g, Messages(g.commits), incoming);
    MergeCommitsSpec(g, Messages(g.commits), incoming);
    forall c | c in incoming ensures c.message in Messages(once.commits) {
      if c.message in Messages(g.commits) {
        var d :| d in g.commits && d.message == c.message;
        assert d in once.commits;
      } else {
        assert c in Fresh(incoming, Messages(g.commits));
        assert c in once.commits;
      }
    }
    AllSeenUnchanged(once, Messages(once.commits), incoming);
  }

  /** `mergeData(existing, newData)` as a value: no stored file gives the new data;
      otherwise the fresh commits are merged, ActivityWatch data and summary replaced,
      `lastUpdated` set to now, and non-empty incoming manual tasks appended. */
  function MergeData(existing: Option<Snapshot>, incoming: Snapshot, now: string): Snapshot {
    match existing
    case None => incoming
    case Some(e) =>
      e.(git := MergeCommits(e.git, Messages(e.git.commits), incoming.git.commits),
         activityWatch := incoming.activityWatch,
         summary := incoming.summary,
         lastUpdated := now,
         manualTasks := if incoming.manualTasks != [] then e.manualTasks + incoming.manualTasks else e.manualTasks)
  }

  /** What `main` writes: the new data (count 1, no manual tasks) merged into the stored
      file, whose count becomes `(collectionCount || 1) + 1`. */
  function Collected(existing: Option<Snapshot>, date: string, now: string, aw: string, git: GitActivity, summary: string)
    : Snapshot
  {
    var incoming := Snapshot(date, now, 1, aw, git, summary, []);
    var merged := MergeData(existing, incoming, now);
    match existing
    case None => merged
    case Some(e) => merged.(collectionCount := (if e.collectionCount == 0 then 1 else e.collectionCount) + 1)
  }

  /** The merge keeps the stored identity and manual tasks and replaces the collected
      data; the first run of a day writes its own snapshot with count 1. */
  lemma CollectedFields(existing: Option<Snapshot>, date: string, now: string, aw: string, git: GitActivity, summary: string)
    ensures var r := Collected(existing, date, now, aw, git, summary);
      && r.activityWatch == aw && r.summary == summary && r.lastUpdated == now
      && (existing.None? ==> r == Snapshot(date, now, 1, aw, git, summary, []))
      && (existing.Some? ==> r.date == existing.value.date && r.manualTasks == existing.value.manualTasks
                              && r.collectionCount >= 2 && r.collectionCount > existing.value.collectionCount)
  {
  }

  /** Inputs of one collector run. */
  datatype RunInput = RunInput(date: string, now: string, aw: string, git: GitActivity, summary: string)

  /** The file after a series of runs. */
  function AfterRuns(existing: Option<Snapshot>, inputs: seq<RunInput>): Option<Snapshot>
    decreases |inputs|
  {
    if inputs == [] then existing
    else
      var i := inputs[0];
      AfterRuns(Some(Collected(existing, i.date, i.now, i.aw, i.git, i.summary)), inputs[1..])
  }

  /** `collectionCount` counts the runs: `n` runs on a day that had no file leave it
      at `n`. */
  lemma {:induction false} CountsRuns(inputs: seq<RunInput>)
    requires inputs != []
    ensures AfterRuns(None, inputs).Some?
    ensures AfterRuns(None, inputs).value.collectionCount == |inputs|
  {
    var i := inputs[0];
    var first := Collected(None, i.date, i.now, i.aw, i.git, i.summary);
    assert first.collectionCount == 1;
    CountsRunsFrom(first, inputs[1..]);
  }

  lemma {:induction false} CountsRunsFrom(s: Snapshot, inputs: seq<RunInput>)
    requires s.collectionCount >= 1
    ensures AfterRuns(Some(s), inputs).Some?
    ensures AfterRuns(Some(s), inputs).value.collectionCount == s.collectionCount + |inputs|
    decreases |inputs|
  {
    if inputs != [] {
      var i := inputs[0];
      var next := Collected(Some(s), i.date, i.now, i.aw, i.git, i.summary);
      assert next.collectionCount == s.collectionCount + 1;
      CountsRunsFrom(next, inputs[1..]);
    }
  }

  /** The stored JSON object `mergeData` updates in place. */
  class ActivityLog {
    var date: string
    var lastUpdated: string
    var collectionCount: nat
    var activityWatch: string
    var summary: string
    var totalCommits: nat
    var byProject: map<string, nat>
    var commits: seq<Commit>
    var manualTasks: seq<string>

    function Value(): Snapshot
      reads this
    {
      Snapshot(date, lastUpdated, collectionCount, activityWatch,
               GitActivity(totalCommits, byProject, commits), summary, manualTasks)
    }

    constructor (s: Snapshot)
      ensures Value() == s
    {
      date, lastUpdated, collectionCount := s.date, s.lastUpdated, s.collectionCount;
      activityWatch, summary := s.activityWatch, s.summary;
      totalCommits, byProject, commits := s.git.totalCommits, s.git.byProject, s.git.commits;
      manualTasks := s.manualTasks;
    }

    /** `mergeData(this, incoming)` for a stored file. */
    method MergeIn(incoming: Snapshot, now: string)
      modifies this
      ensures Value() == MergeData(Some(old(Value())), incoming, now)
    {
      var seen := Messages(commits);
      var git := GitActivity(totalCommits, byProject, commits);
      ghost var g0 := git;
      var news := incoming.git.commits;
      var i := 0;
      while i < |news|
        invariant 0 <= i <= |news|
        invariant unchanged(this)
        invariant MergeCommits(git, seen, news[i..]) == MergeCommits(g0, seen, news)
      {
        MergeCommitsAt(git, seen, news, i);
        git := MergeOne(git, seen, news[i]);
        i := i + 1;
      }
      totalCommits, byProject, commits := git.totalCommits, git.byProject, git.commits;
      activityWatch := incoming.activityWatch;
      summary := incoming.summary;
      lastUpdated := now;
      if incoming.manualTasks != [] {
        manualTasks := manualTasks + incoming.manualTasks;
      }
    }
  }

  /** One iteration of the commit loop: an unseen message is pushed and both counters
      bumped. */
  method MergeOne(git: GitActivity, seen: set<string>, c: Commit) returns (r: GitActivity)
    ensures r == if c.message in seen then git else Appended(git, c)
  {
    r := git;
    if c.message !in seen {
      r := r.(commits := r.commits + [c]);
      r := r.(totalCommits := r.totalCommits + 1);
      r := r.(byProject := r.byProject[c.project := (if c.project in r.byProject then r.byProject[c.project] else 0) + 1]);
    }
  }

  lemma MergeCommitsAt(g: GitActivity, seen: set<string>, incoming: seq<Commit>, i: nat)
    requires i < |incoming|
    ensures MergeCommits(g, seen, incoming[i..])
         == MergeCommits(if incoming[i].message in seen then g else Appended(g, incoming[i]), seen, incoming[i + 1..])
  {
    assert incoming[i..][0] == incoming[i] && incoming[i..][1..] == incoming[i + 1..];
  }

  /** `main`'s merge and count update: a day without a file gets a new one; otherwise
      the stored object is merged into and its count bumped. */
  method Collect(existing: ActivityLog?, date: string, now: string, aw: string, git: GitActivity, summary: string)
    returns (final: ActivityLog)
    modifies existing
    ensures existing == null ==> fresh(final) && final.Value() == Collected(None, date, now, aw, git, summary)
    ensures existing != null ==>
              final == existing &&
              final.Value() == Collected(Some(old(existing.Value())), date, now, aw, git, summary)
  {
    var incoming := Snapshot(date, now, 1, aw, git, summary, []);
    if existing == null {
      final := new ActivityLog(incoming);
      return;
    }
    existing.MergeIn(incoming, now);
    existing.collectionCount := (if existing.collectionCount == 0 then 1 else existing.collectionCount) + 1;
    final := existing;
  }
}
