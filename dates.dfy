/** Where one day's documents live. The wall clock is not read here: the year, the
    zero-based month (`getMonth()`) and the day of the month are parameters. */
module Dates {
  import opened Text

  /** `${year}-${month}-${day}`, month and day padded to two digits. */
  function DateStem(year: nat, monthIndex: nat, day: nat): (stem: string)
    ensures monthIndex < 99 && day < 100 ==> |stem| == |NatToString(year)| + 6
  {
    NatToString(year) + "-" + Pad2(monthIndex + 1) + "-" + Pad2(day)
  }

  /** The daily log's file name, `YYYY-MM-DD.md` (the server's `getTodayFilePath` and the
      popup's `getTodayFilename` build the same name). */
  function DailyLogFileName(year: nat, monthIndex: nat, day: nat): (name: string)
    ensures monthIndex < 99 && day < 100 ==> |name| == |NatToString(year)| + 9
    ensures |name| >= 3 && name[|name| - 3..] == ".md"
  {
    DateStem(year, monthIndex, day) + ".md"
  }

  lemma StemParts(year: nat, monthIndex: nat, day: nat)
    requires monthIndex < 99 && day < 100
    ensures var stem, y := DateStem(year, monthIndex, day), NatToString(year);
      stem[..|y|] == y && stem[|y| + 1..|y| + 3] == Pad2(monthIndex + 1)
      && stem[|y| + 4..|y| + 6] == Pad2(day)
  {
  }

  /** Different days get different log files. */
  lemma DailyLogFileNameInjective(y1: nat, m1: nat, d1: nat, y2: nat, m2: nat, d2: nat)
    requires m1 < 99 && d1 < 100 && m2 < 99 && d2 < 100
    requires DailyLogFileName(y1, m1, d1) == DailyLogFileName(y2, m2, d2)
    ensures y1 == y2 && m1 == m2 && d1 == d2
  {
    NameStem(y1, m1, d1);
    NameStem(y2, m2, d2);
    DateStemInjective(y1, m1, d1, y2, m2, d2);
  }

  lemma NameStem(year: nat, monthIndex: nat, day: nat)
    ensures var n := DailyLogFileName(year, monthIndex, day);
      |n| >= 3 && n[..|n| - 3] == DateStem(year, monthIndex, day)
  {
  }

  /** Different days get different stems. */
  lemma DateStemInjective(y1: nat, m1: nat, d1: nat, y2: nat, m2: nat, d2: nat)
    requires m1 < 99 && d1 < 100 && m2 < 99 && d2 < 100
    requires DateStem(y1, m1, d1) == DateStem(y2, m2, d2)
    ensures y1 == y2 && m1 == m2 && d1 == d2
  {
    var a, b := NatToString(y1), NatToString(y2);
    assert |a| == |b|;
    StemParts(y1, m1, d1);
    StemParts(y2, m2, d2);
    DigitsValueOfNatToString(y1);
    DigitsValueOfNatToString(y2);
    Pad2Value(m1 + 1);
    Pad2Value(m2 + 1);
    Pad2Value(d1);
    Pad2Value(d2);
  }

  /** A file path, as the components `path.join` is given. */
  datatype LogPath = LogPath(dir: seq<string>, file: seq<string>)

  /** `getTodayFilePath` in the server: the directory `<tasksDir>/<year>/<MM>` and the
      log file inside it. */
  function TodayFilePath(tasksDir: string, year: nat, monthIndex: nat, day: nat): (p: LogPath)
    ensures |p.file| == |p.dir| + 1 && p.file[..|p.dir|] == p.dir
    ensures p.dir == [tasksDir, NatToString(year), Pad2(monthIndex + 1)]
    ensures p.file[|p.dir|] == DailyLogFileName(year, monthIndex, day)
  {
    var month := Pad2(monthIndex + 1);
    LogPath([tasksDir, NatToString(year), month],
            [tasksDir, NatToString(year), month, DailyLogFileName(year, monthIndex, day)])
  }

  /** `getTodayPaths` in the collector. */
  datatype ActivityPaths = ActivityPaths(dir: seq<string>, file: seq<string>,
                                         year: string, month: string, day: string)

  function TodayPaths(logsDir: string, year: nat, monthIndex: nat, day: nat): (p: ActivityPaths)
    ensures p.dir == [logsDir, p.year, p.month] && |p.file| == 4 && p.file[..3] == p.dir
    ensures p.year + "-" + p.month + "-" + p.day == DateStem(year, monthIndex, day)
  {
    var y, m, d := NatToString(year), Pad2(monthIndex + 1), Pad2(day);
    ActivityPaths([logsDir, y, m], [logsDir, y, m, y + "-" + m + "-" + d + "-activity.json"], y, m, d)
  }

  /** The collector's snapshot file and the server's log file of one day carry the
      same date, and the snapshot's `date` field is that date. */
  lemma ActivityFileMatchesLogFile(logsDir: string, year: nat, monthIndex: nat, day: nat)
    ensures var p := TodayPaths(logsDir, year, monthIndex, day);
      p.file[3] == DateStem(year, monthIndex, day) + "-activity.json"
      && DailyLogFileName(year, monthIndex, day) == DateStem(year, monthIndex, day) + ".md"
  {
  }
}
