/** The manual-task list the server keeps beside the logs: every entry the extension
    posts becomes one record, stamped with the day and the time it was saved. The
    list's file is the object's state (a missing file reads as an empty list); the
    date and the timestamp are parameters. */
module ManualTasks {
  import opened Text
  import opened ServerLog

  /** The `type` a record is saved with: `completed`, `learning`, `inProgress` or
      `blocker`. */
  datatype TaskKind = Completed | Learning | InProgress | Blocker

  /** `{ type, content, date, timestamp }`. */
  datatype ManualTask = ManualTask(kind: TaskKind, content: string, date: string, timestamp: string)

  /** One record per item, in order, all of the same kind. */
  function Records(kind: TaskKind, items: seq<string>, today: string, now: string): (r: seq<ManualTask>)
    ensures |r| == |items|
    decreases |items|
  {
    if items == [] then []
    else [ManualTask(kind, items[0], today, now)] + Records(kind, items[1..], today, now)
  }

  /** The records a POST of `e` adds: the completed entries, then the learning, in
      progress and blocker ones, each list in its own order. */
  function FanOut(e: Entries, today: string, now: string): seq<ManualTask> {
    Records(Completed, e.completed, today, now) + Records(Learning, e.learning, today, now)
    + Records(InProgress, e.inProgress, today, now) + Records(Blocker, e.blockers, today, now)
  }

  /** The contents of the records of one kind, in order. */
  function OfKind(tasks: seq<ManualTask>, kind: TaskKind): seq<string>
    decreases |tasks|
  {
    if tasks == [] then []
    else (if tasks[0].kind == kind then [tasks[0].content] else []) + OfKind(tasks[1..], kind)
  }

  /** `loadManualTasks`: the records saved on `today`, in stored order. */
  function TodaysTasks(tasks: seq<ManualTask>, today: string): (r: seq<ManualTask>)
    ensures |r| <= |tasks|
    ensures forall t :: t in r <==> t in tasks && t.date == today
    decreases |tasks|
  {
    if tasks == [] then []
    else
      var rest := TodaysTasks(tasks[1..], today);
      assert forall t :: t in tasks <==> t == tasks[0] || t in tasks[1..];
      if tasks[0].date == today then [tasks[0]] + rest else rest
  }

  /** The list file, as the object `saveManualTask` reads, pushes onto and writes back. */
  class ManualTaskStore {
    var tasks: seq<ManualTask>

    /** No file yet: `{ tasks: [] }`. */
    constructor ()
      ensures tasks == []
    {
      tasks := [];
    }

    /** `saveManualTask({ type, content })`: one record more, at the end. */
    method SaveManualTask(kind: TaskKind, content: string, today: string, now: string)
      modifies this
      ensures tasks == old(tasks) + [ManualTask(kind, content, today, now)]
    {
      tasks := tasks + [ManualTask(kind, content, today, now)];
    }

    /** The loop over one list of the POST body. */
    method SaveAll(kind: TaskKind, items: seq<string>, today: string, now: string)
      modifies this
      ensures tasks == old(tasks) + Records(kind, items, today, now)
    {
      var i := 0;
      while i < |items|
        invariant 0 <= i <= |items|
        invariant tasks == old(tasks) + Records(kind, items[..i], today, now)
      {
        RecordsSnoc(kind, items, i, today, now);
        SaveManualTask(kind, items[i], today, now);
        i := i + 1;
      }
      assert items[..i] == items;
    }

    /** The POST handler's fan-out: every entry of every list is saved, list by list. */
    method PostTasks(e: Entries, today: string, now: string)
      modifies this
      ensures tasks == old(tasks) + FanOut(e, today, now)
    {
      ghost var t0 := tasks;
      if |e.completed| > 0 {
        SaveAll(Completed, e.completed, today, now);
      }
      ghost var t1 := tasks;
      SavedIfAny(t0, t1, Completed, e.completed, today, now);
      if |e.learning| > 0 {
        SaveAll(Learning, e.learning, today, now);
      }
      ghost var t2 := tasks;
      SavedIfAny(t1, t2, Learning, e.learning, today, now);
      if |e.inProgress| > 0 {
        SaveAll(InProgress, e.inProgress, today, now);
      }
      ghost var t3 := tasks;
      SavedIfAny(t2, t3, InProgress, e.inProgress, today, now);
      if |e.blockers| > 0 {
        SaveAll(Blocker, e.blockers, today, now);
      }
      SavedIfAny(t3, tasks, Blocker, e.blockers, today, now);
      FanOutAfter(t0, e, today, now);
    }

    /** `loadManualTasks()`. */
    method LoadManualTasks(today: string) returns (r: seq<ManualTask>)
      ensures r == TodaysTasks(tasks, today)
    {
      r := [];
      var i := 0;
      while i < |tasks|
        invariant 0 <= i <= |tasks|
        invariant r + TodaysTasks(tasks[i..], today) == TodaysTasks(tasks, today)
      {
        TodaysTasksStep(tasks, i, today);
        if tasks[i].date == today {
          r := r + [tasks[i]];
        }
        i := i + 1;
      }
    }
  }

  /** A list that is skipped for being empty adds its (no) records all the same. */
  lemma SavedIfAny(before: seq<ManualTask>, after: seq<ManualTask>, kind: TaskKind, items: seq<string>, today: string, now: string)
    requires |items| > 0 ==> after == before + Records(kind, items, today, now)
    requires |items| == 0 ==> after == before
    ensures after == before + Records(kind, items, today, now)
  {
    if |items| == 0 {
      assert before + [] == before;
    }
  }

  /** The four lists appended one after another are the fan-out appended at once. */
  lemma FanOutAfter(t0: seq<ManualTask>, e: Entries, today: string, now: string)
    ensures t0 + Records(Completed, e.completed, today, now) + Records(Learning, e.learning, today, now)
      + Records(InProgress, e.inProgress, today, now) + Records(Blocker, e.blockers, today, now)
      == t0 + FanOut(e, today, now)
  {
  }

  lemma RecordsSnoc(kind: TaskKind, items: seq<string>, i: nat, today: string, now: string)
    requires i < |items|
    ensures Records(kind, items[..i + 1], today, now)
      == Records(kind, items[..i], today, now) + [ManualTask(kind, items[i], today, now)]
  {
    assert items[..i + 1] == items[..i] + [items[i]];
    RecordsAppend(kind, items[..i], [items[i]], today, now);
  }

  lemma {:induction false} RecordsAppend(kind: TaskKind, a: seq<string>, b: seq<string>, today: string, now: string)
    ensures Records(kind, a + b, today, now) == Records(kind, a, today, now) + Records(kind, b, today, now)
    decreases |a|
  {
    if a == [] {
      assert a + b == b;
    } else {
      assert (a + b)[0] == a[0] && (a + b)[1..] == a[1..] + b;
      RecordsAppend(kind, a[1..], b, today, now);
    }
  }

  lemma TodaysTasksStep(tasks: seq<ManualTask>, i: nat, today: string)
    requires i < |tasks|
    ensures TodaysTasks(tasks[i..], today)
      == (if tasks[i].date == today then [tasks[i]] else []) + TodaysTasks(tasks[i + 1..], today)
  {
    assert tasks[i..][0] == tasks[i] && tasks[i..][1..] == tasks[i + 1..];
  }

  /** Record `i` of a list carries item `i`, with the list's kind, day and time. */
  lemma {:induction false} RecordsAt(kind: TaskKind, items: seq<string>, today: string, now: string, i: nat)
    requires i < |items|
    ensures Records(kind, items, today, now)[i] == ManualTask(kind, items[i], today, now)
    decreases i
  {
    if i > 0 {
      RecordsAt(kind, items[1..], today, now, i - 1);
    }
  }

  /** The records of a list read back, by kind, as the list; no other kind shows up. */
  lemma {:induction false} RecordsOfKind(kind: TaskKind, items: seq<string>, today: string, now: string, other: TaskKind)
    ensures OfKind(Records(kind, items, today, now), other) == if other == kind then items else []
    decreases |items|
  {
    if items != [] {
      RecordsOfKind(kind, items[1..], today, now, other);
      var r := Records(kind, items, today, now);
      assert r[0] == ManualTask(kind, items[0], today, now) && r[1..] == Records(kind, items[1..], today, now);
      if other == kind {
        HeadTail(items);
      }
    }
  }

  lemma {:induction false} OfKindAppend(a: seq<ManualTask>, b: seq<ManualTask>, kind: TaskKind)
    ensures OfKind(a + b, kind) == OfKind(a, kind) + OfKind(b, kind)
    decreases |a|
  {
    if a == [] {
      assert a + b == b;
    } else {
      assert (a + b)[0] == a[0] && (a + b)[1..] == a[1..] + b;
      OfKindAppend(a[1..], b, kind);
    }
  }

  /** Every entry of a POST is saved exactly once, under its list's kind, in order: the
      records of each kind read back as that list. */
  lemma FanOutRoundTrip(e: Entries, today: string, now: string)
    ensures OfKind(FanOut(e, today, now), Completed) == e.completed
    ensures OfKind(FanOut(e, today, now), Learning) == e.learning
    ensures OfKind(FanOut(e, today, now), InProgress) == e.inProgress
    ensures OfKind(FanOut(e, today, now), Blocker) == e.blockers
  {
    FanOutKind(e, today, now, Completed);
    FanOutKind(e, today, now, Learning);
    FanOutKind(e, today, now, InProgress);
    FanOutKind(e, today, now, Blocker);
  }

  lemma FanOutKind(e: Entries, today: string, now: string, kind: TaskKind)
    ensures OfKind(FanOut(e, today, now), kind) == EntriesOf(e, kind)
  {
    var c, l := Records(Completed, e.completed, today, now), Records(Learning, e.learning, today, now);
    var p, b := Records(InProgress, e.inProgress, today, now), Records(Blocker, e.blockers, today, now);
    OfKindFour(c, l, p, b, kind);
    RecordsOfKind(Completed, e.completed, today, now, kind);
    RecordsOfKind(Learning, e.learning, today, now, kind);
    RecordsOfKind(InProgress, e.inProgress, today, now, kind);
    RecordsOfKind(Blocker, e.blockers, today, now, kind);
    PickKind(e, kind);
  }

  /** The list of `e` that carries `kind`. */
  function EntriesOf(e: Entries, kind: TaskKind): seq<string> {
    match kind
    case Completed => e.completed
    case Learning => e.learning
    case InProgress => e.inProgress
    case Blocker => e.blockers
  }

  lemma PickKind(e: Entries, kind: TaskKind)
    ensures (if kind == Completed then e.completed else []) + (if kind == Learning then e.learning else [])
          + (if kind == InProgress then e.inProgress else []) + (if kind == Blocker then e.blockers else [])
         == EntriesOf(e, kind)
  {
    var none: seq<string> := [];
    match kind {
      case Completed => assert e.completed + none + none + none == e.completed;
      case Learning => assert none + e.learning + none + none == e.learning;
      case InProgress => assert none + none + e.inProgress + none == e.inProgress;
      case Blocker => assert none + none + none + e.blockers == e.blockers;
    }
  }

  lemma OfKindFour(c: seq<ManualTask>, l: seq<ManualTask>, p: seq<ManualTask>, b: seq<ManualTask>, kind: TaskKind)
    ensures OfKind(c + l + p + b, kind) == OfKind(c, kind) + OfKind(l, kind) + OfKind(p, kind) + OfKind(b, kind)
  {
    OfKindAppend(c + l + p, b, kind);
    OfKindAppend(c + l, p, kind);
    OfKindAppend(c, l, kind);
  }

  /** A POST adds one record per entry. */
  lemma FanOutSize(e: Entries, today: string, now: string)
    ensures |FanOut(e, today, now)| == |e.completed| + |e.learning| + |e.inProgress| + |e.blockers|
  {
  }

  /** Filtering distributes over the stored list's parts. */
  lemma {:induction false} TodaysTasksAppend(a: seq<ManualTask>, b: seq<ManualTask>, today: string)
    ensures TodaysTasks(a + b, today) == TodaysTasks(a, today) + TodaysTasks(b, today)
    decreases |a|
  {
    if a == [] {
      assert a + b == b;
    } else {
      assert (a + b)[0] == a[0] && (a + b)[1..] == a[1..] + b;
      TodaysTasksAppend(a[1..], b, today);
    }
  }

  /** Records saved today all pass the filter. */
  lemma {:induction false} RecordsToday(kind: TaskKind, items: seq<string>, today: string, now: string)
    ensures TodaysTasks(Records(kind, items, today, now), today) == Records(kind, items, today, now)
    decreases |items|
  {
    if items != [] {
      RecordsToday(kind, items[1..], today, now);
    }
  }

  /** After a POST, today's list is what it was followed by the new records, in order. */
  lemma LoadAfterPost(before: seq<ManualTask>, e: Entries, today: string, now: string)
    ensures TodaysTasks(before + FanOut(e, today, now), today)
      == TodaysTasks(before, today) + FanOut(e, today, now)
  {
    var c, l := Records(Completed, e.completed, today, now), Records(Learning, e.learning, today, now);
    var p, b := Records(InProgress, e.inProgress, today, now), Records(Blocker, e.blockers, today, now);
    TodaysTasksAppend(before, FanOut(e, today, now), today);
    TodaysTasksAppend(c + l + p, b, today);
    TodaysTasksAppend(c + l, p, today);
    TodaysTasksAppend(c, l, today);
    RecordsToday(Completed, e.completed, today, now);
    RecordsToday(Learning, e.learning, today, now);
    RecordsToday(InProgress, e.inProgress, today, now);
    RecordsToday(Blocker, e.blockers, today, now);
  }

  /** Records of another day are never loaded. */
  lemma OtherDayHidden(kind: TaskKind, items: seq<string>, day: string, today: string, now: string)
    requires day != today
    ensures TodaysTasks(Records(kind, items, day, now), today) == []
  {
    forall t | t in Records(kind, items, day, now)
      ensures t.date == day
    {
      var i :| 0 <= i < |items| && Records(kind, items, day, now)[i] == t;
      RecordsAt(kind, items, day, now, i);
    }
  }
}
