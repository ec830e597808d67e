/** The extension popup's view of a day: `parseDailyLog`, the quick-add store, the
    five-minute cache and the choice `fetchTodayLog` makes. `chrome.storage.local` is
    the state of an `ExtensionStorage` object; the clock, the time-of-day text and the
    HTTP response are parameters. */
module Popup {
  import opened Text
  import opened Markdown
  import Dates

  // ---------------------------------------------------------------- numbers

  /** `[\d.]` when `dots`, `\d` otherwise. */
  predicate RunChar(c: char, dots: bool) {
    IsDigit(c) || (dots && c == '.')
  }

  /** The end of the (greedy) run of run characters that starts at `k`. */
  function RunEnd(s: string, k: nat, dots: bool): (e: nat)
    requires k <= |s|
    ensures k <= e <= |s|
    ensures forall m :: k <= m < e ==> RunChar(s[m], dots)
    ensures e == |s| || !RunChar(s[e], dots)
    decreases |s| - k
  {
    if k < |s| && RunChar(s[k], dots) then RunEnd(s, k + 1, dots) else k
  }

  /** `/tag\s*(run+)/` matches at `k`: the tag, white space, then a run character. */
  predicate LabelledAt(s: string, tag: string, dots: bool, k: nat) {
    OccursAt(s, tag, k) && (var e := SpaceRunEnd(s, k + |tag|); e < |s| && RunChar(s[e], dots))
  }

  /** `s.match(/tag\s*(run+)/)[1]`: the run captured by the leftmost match at or
      after `from`. */
  function LabelledRun(s: string, tag: string, dots: bool, from: nat): (r: Option<string>)
    ensures r.Some? ==> r.value != [] && forall m :: 0 <= m < |r.value| ==> RunChar(r.value[m], dots)
    ensures r.None? ==> forall k :: from <= k ==> !LabelledAt(s, tag, dots, k)
    decreases |s| - from
  {
    if from + |tag| > |s| then None
    else if LabelledAt(s, tag, dots, from) then
      var e := SpaceRunEnd(s, from + |tag|);
      Some(s[e..RunEnd(s, e, dots)])
    else LabelledRun(s, tag, dots, from + 1)
  }

  /** An hours figure: 0 until the frontmatter gives one; `parseFloat` of the captured
      text is not part of this model. */
  datatype Hours = NoHours | HoursText(text: string)

  function HoursOf(frontmatter: Option<string>, tag: string): Hours {
    match frontmatter
    case None => NoHours
    case Some(fm) =>
      match LabelledRun(fm, tag, true, 0)
      case None => NoHours
      case Some(t) => HoursText(t)
  }

  /** `parseInt` of the digits after `commits_today:`, or 0. */
  function CommitsOf(frontmatter: Option<string>): nat {
    match frontmatter
    case None => 0
    case Some(fm) =>
      match LabelledRun(fm, "commits_today:", false, 0)
      case None => 0
      case Some(ds) => DigitsValue(ds)
  }

  /** A line `commits_today: N`, as `generateMarkdown` writes it, after any frontmatter text
      `pre` that does not itself hold `commits_today:`, reads back as `N`. */
  lemma CommitsReadBack(pre: string, n: nat, rest: string)
    requires !Includes(pre, "commits_today:")
    requires rest == [] || !IsDigit(rest[0])
    ensures CommitsOf(Some(pre + "commits_today: " + NatToString(n) + rest)) == n
  {
    var tag, head, ds := "commits_today:", "commits_today: ", NatToString(n);
    var s := pre + head + ds + rest;
    var p := |pre|;
    assert head[..14] == tag && head[14] == ' ';
    assert forall j :: 0 <= j < 13 ==> tag[j] != ':';
    PrefixedLayout(pre, head, ds, rest, 14);
    NoOccurrenceBefore(s, tag, p);
    LabelledRunSkips(s, tag, false, 0, p);
    DigitRunAt(s, tag, p, |ds|);
    assert s[p + 15..p + 15 + |ds|] == ds;
    DigitsValueOfNatToString(n);
  }

  /** Where the parts of `pre + head + ds + rest` sit. */
  lemma PrefixedLayout(pre: string, head: string, ds: string, rest: string, t: nat)
    requires |head| == t + 1
    ensures var s := pre + head + ds + rest; var p := |pre|;
      && s[..p] == pre && s[p..p + t] == head[..t] && s[p + t] == head[t]
      && (forall m :: p + t + 1 <= m < p + t + 1 + |ds| ==> s[m] == ds[m - p - t - 1])
      && (rest != [] ==> s[p + t + 1 + |ds|] == rest[0])
      && |s| == p + t + 1 + |ds| + |rest|
  {
  }

  /** When `tag` occurs at `p`, its last character occurs nowhere else in it, and the
      text before `p` does not hold it, `tag` occurs nowhere before `p`: an occurrence
      cannot straddle `p`. */
  lemma NoOccurrenceBefore(s: string, tag: string, p: nat)
    requires tag != [] && OccursAt(s, tag, p)
    requires forall j :: 0 <= j < |tag| - 1 ==> tag[j] != tag[|tag| - 1]
    requires !Includes(s[..p], tag)
    ensures forall k: nat :: k < p ==> !OccursAt(s, tag, k)
  {
    forall k: nat | k < p
      ensures !OccursAt(s, tag, k)
    {
      var last := k + |tag| - 1;
      if k + |tag| <= p {
        assert s[..p][k..k + |tag|] == s[k..k + |tag|];
        assert !OccursAt(s[..p], tag, k);
      } else {
        assert s[last] == s[p..p + |tag|][last - p] == tag[last - p];
        assert s[last] != tag[|tag| - 1];
      }
    }
  }

  /** Positions where no match starts are passed over. */
  lemma {:induction false} LabelledRunSkips(s: string, tag: string, dots: bool, lo: nat, hi: nat)
    requires lo <= hi
    requires forall k :: lo <= k < hi ==> !LabelledAt(s, tag, dots, k)
    ensures LabelledRun(s, tag, dots, lo) == LabelledRun(s, tag, dots, hi)
    decreases hi - lo
  {
    if lo < hi && lo + |tag| <= |s| {
      LabelledRunSkips(s, tag, dots, lo + 1, hi);
    }
  }

  /** The tag at `at`, one space, then a digit run of length `len` ending at a
      non-digit: the run is what is captured. */
  lemma DigitRunAt(s: string, tag: string, at: nat, len: nat)
    requires OccursAt(s, tag, at) && at + |tag| + 1 + len <= |s| && len > 0 && s[at + |tag|] == ' '
    requires forall m :: at + |tag| + 1 <= m < at + |tag| + 1 + len ==> IsDigit(s[m])
    requires at + |tag| + 1 + len == |s| || !IsDigit(s[at + |tag| + 1 + len])
    ensures LabelledRun(s, tag, false, at) == Some(s[at + |tag| + 1..at + |tag| + 1 + len])
  {
    var p := at + |tag| + 1;
    assert IsDigit(s[p]);
    assert SpaceRunEnd(s, p) == p;
    assert SpaceRunEnd(s, at + |tag|) == p;
    RunOver(s, p, len);
    assert LabelledAt(s, tag, false, at);
  }

  lemma {:induction false} RunOver(s: string, k: nat, len: nat)
    requires k + len <= |s|
    requires forall m :: k <= m < k + len ==> IsDigit(s[m])
    requires k + len == |s| || !IsDigit(s[k + len])
    ensures RunEnd(s, k, false) == k + len
    decreases len
  {
    if len > 0 {
      RunOver(s, k + 1, len - 1);
    }
  }

  // ---------------------------------------------------------------- buckets

  datatype Bucket = Completed | Learning | InProgress | Blockers

  /** Which list a segment goes to: its whole lower-cased text is searched, in this
      order, for `completed tasks`, then `research & learning` or `learnings`, then
      `in progress`, then `blockers`. */
  function Classify(section: string): Option<Bucket> {
    var low := ToLower(section);
    if Includes(low, "completed tasks") then Some(Completed)
    else if Includes(low, "research & learning") || Includes(low, "learnings") then Some(Learning)
    else if Includes(low, "in progress") then Some(InProgress)
    else if Includes(low, "blockers") then Some(Blockers)
    else None
  }

  /** A segment goes to no list exactly when it mentions none of the five keywords. */
  lemma ClassifyNoneIff(section: string)
    ensures Classify(section).None? <==>
      var low := ToLower(section);
      !Includes(low, "completed tasks") && !Includes(low, "research & learning")
      && !Includes(low, "learnings") && !Includes(low, "in progress") && !Includes(low, "blockers")
  {
  }

  /** The items one segment contributes to bucket `b`. */
  function Routed(section: string, b: Bucket): seq<string> {
    if Classify(section) == Some(b) then SegmentItems(section) else []
  }

  /** The items the segments route to bucket `b`, in document order. */
  function BucketItems(segments: seq<string>, b: Bucket): seq<string>
    decreases |segments|
  {
    if segments == [] then [] else Routed(segments[0], b) + BucketItems(segments[1..], b)
  }

  /** What `parseDailyLog` returns. */
  datatype DailyLog = DailyLog(hoursActive: Hours, hoursCoding: Hours, commitsToday: nat,
                               completed: seq<string>, learning: seq<string>,
                               inProgress: seq<string>, blockers: seq<string>)

  /** `parseDailyLog(markdown)` as a value. */
  function ParsedDaily(markdown: string): DailyLog {
    var fm := FrontmatterBody(markdown);
    var segments := SplitSections(markdown);
    DailyLog(HoursOf(fm, "hours_active:"), HoursOf(fm, "hours_coding:"), CommitsOf(fm),
             BucketItems(segments, Completed), BucketItems(segments, Learning),
             BucketItems(segments, InProgress), BucketItems(segments, Blockers))
  }

  /** `parseDailyLog`: the numbers from the frontmatter, then every segment's items
      pushed onto the list it is routed to. */
  method ParseDailyLog(markdown: string) returns (data: DailyLog)
    ensures data == ParsedDaily(markdown)
  {
    var fm := FrontmatterBody(markdown);
    var hoursActive, hoursCoding, commitsToday := NoHours, NoHours, 0;
    if fm.Some? {
      hoursActive := HoursOf(fm, "hours_active:");
      hoursCoding := HoursOf(fm, "hours_coding:");
      commitsToday := CommitsOf(fm);
    }
    var segments := SplitSections(markdown);
    var lists := DefaultData();
    var i := 0;
    while i < |segments|
      invariant 0 <= i <= |segments|
      invariant forall b :: Items(lists, b) + BucketItems(segments[i..], b) == BucketItems(segments, b)
    {
      var next := RouteSegment(lists, segments[i]);
      RouteStep(lists, next, segments, i);
      lists := next;
      i := i + 1;
    }
    assert forall b :: Items(lists, b) == BucketItems(segments, b) by {
      forall b ensures Items(lists, b) == BucketItems(segments, b) {
        assert Items(lists, b) + BucketItems(segments[i..], b) == BucketItems(segments, b);
        assert segments[i..] == [];
      }
    }
    data := DailyLog(hoursActive, hoursCoding, commitsToday,
                     Items(lists, Completed), Items(lists, Learning), Items(lists, InProgress), Items(lists, Blockers));
  }

  /** One iteration of `parseDailyLog`'s loop: the segment's items pushed onto the list
      its text selects. */
  method RouteSegment(lists: Buckets, section: string) returns (r: Buckets)
    ensures forall b :: Items(r, b) == Items(lists, b) + Routed(section, b)
  {
    var items := SegmentItems(section);
    var dest := Classify(section);
    r := PushItems(lists, dest, items);
  }

  /** `data[dest].push(...items)`. */
  method PushItems(lists: Buckets, dest: Option<Bucket>, items: seq<string>) returns (r: Buckets)
    ensures forall b :: Items(r, b) == Items(lists, b) + (if dest == Some(b) then items else [])
  {
    r := lists;
    match dest {
      case None =>
      case Some(Completed) => r := r.(completed := r.completed + items);
      case Some(Learning) => r := r.(learning := r.learning + items);
      case Some(InProgress) => r := r.(inProgress := r.inProgress + items);
      case Some(Blockers) => r := r.(blockers := r.blockers + items);
    }
    forall b ensures Items(r, b) == Items(lists, b) + (if dest == Some(b) then items else []) {
      if dest != Some(b) {
        assert Items(lists, b) + [] == Items(lists, b);
      }
    }
  }

  lemma RouteStep(lists: Buckets, next: Buckets, segments: seq<string>, i: nat)
    requires i < |segments|
    requires forall b :: Items(next, b) == Items(lists, b) + Routed(segments[i], b)
    ensures forall b :: Items(next, b) + BucketItems(segments[i + 1..], b)
                     == Items(lists, b) + BucketItems(segments[i..], b)
  {
    forall b
      ensures Items(next, b) + BucketItems(segments[i + 1..], b) == Items(lists, b) + BucketItems(segments[i..], b)
    {
      BucketItemsAt(segments, i, b);
      Associate(Items(lists, b), Routed(segments[i], b), BucketItems(segments[i + 1..], b));
    }
  }

  lemma BucketItemsAt(segments: seq<string>, i: nat, b: Bucket)
    requires i < |segments|
    ensures BucketItems(segments[i..], b) == Routed(segments[i], b) + BucketItems(segments[i + 1..], b)
  {
    assert segments[i..][0] == segments[i] && segments[i..][1..] == segments[i + 1..];
  }

  lemma Associate(x: seq<string>, y: seq<string>, z: seq<string>)
    ensures (x + y) + z == x + (y + z)
  {
  }

  /** Segments routed to the same bucket concatenate in document order. */
  lemma {:induction false} BucketItemsAppend(a: seq<string>, c: seq<string>, b: Bucket)
    ensures BucketItems(a + c, b) == BucketItems(a, b) + BucketItems(c, b)
    decreases |a|
  {
    if a == [] {
      assert a + c == c;
    } else {
      assert (a + c)[0] == a[0] && (a + c)[1..] == a[1..] + c;
      BucketItemsAppend(a[1..], c, b);
    }
  }

  /** A segment that no keyword routes contributes to no list. */
  lemma {:induction false} UnroutedContributesNothing(segments: seq<string>, b: Bucket)
    requires forall i :: 0 <= i < |segments| ==> Classify(segments[i]).None?
    ensures BucketItems(segments, b) == []
    decreases |segments|
  {
    if segments != [] {
      assert Classify(segments[0]).None?;
      UnroutedContributesNothing(segments[1..], b);
    }
  }

  /** Every segment goes to at most one list: over the four lists together, a
      segment's items are counted once when it is routed and not at all otherwise. */
  lemma {:induction false} BucketsPartition(segments: seq<string>)
    ensures |BucketItems(segments, Completed)| + |BucketItems(segments, Learning)|
          + |BucketItems(segments, InProgress)| + |BucketItems(segments, Blockers)|
        == RoutedCount(segments)
    decreases |segments|
  {
    if segments != [] {
      BucketsPartition(segments[1..]);
    }
  }

  /** The number of items of the routed segments. */
  function RoutedCount(segments: seq<string>): nat
    decreases |segments|
  {
    if segments == [] then 0
    else (if Classify(segments[0]).Some? then |SegmentItems(segments[0])| else 0) + RoutedCount(segments[1..])
  }

  lemma ToLowerAppend(a: string, c: string)
    ensures ToLower(a + c) == ToLower(a) + ToLower(c)
  {
  }

  lemma IncludesSuffix(a: string, c: string, pat: string)
    requires Includes(c, pat)
    ensures Includes(a + c, pat)
  {
    var k :| OccursAt(c, pat, k);
    assert (a + c)[|a| + k..|a| + k + |pat|] == c[k..k + |pat|];
    assert OccursAt(a + c, pat, |a| + k);
  }

  /** The whole segment is searched, not only its title: a segment of any title whose
      body mentions `completed tasks` goes to the completed list. */
  lemma ClassifyByWholeText(title: string, body: string)
    requires Includes(ToLower(body), "completed tasks")
    ensures Classify(title + body) == Some(Completed)
  {
    ToLowerAppend(title, body);
    IncludesSuffix(ToLower(title), ToLower(body), "completed tasks");
  }

  /** The same for a `learnings` mention, when nothing mentions completed tasks. */
  lemma LearningsAlias(title: string, body: string)
    requires Includes(ToLower(body), "learnings")
    requires !Includes(ToLower(title + body), "completed tasks")
    ensures Classify(title + body) == Some(Learning)
  {
    ToLowerAppend(title, body);
    IncludesSuffix(ToLower(title), ToLower(body), "learnings");
  }

  /** A server heading `In Progress` whose item mentions completed tasks is filed as
      completed. */
  lemma InProgressMisrouted()
    ensures Classify("In Progress\n- completed tasks\n") == Some(Completed)
  {
    var s := "In Progress\n- completed tasks\n";
    assert s == "In Progress\n- " + "completed tasks\n";
    assert ToLower("completed tasks\n") == "completed tasks\n";
    assert OccursAt("completed tasks\n", "completed tasks", 0);
    ClassifyByWholeText("In Progress\n- ", "completed tasks\n");
  }

  // ---------------------------------------------------------------- file name

  /** `getTodayFilename()`: `YYYY-MM-DD.md`, the month lower-cased. */
  function TodayFilename(year: nat, monthIndex: nat, day: nat): string {
    NatToString(year) + "-" + ToLower(Pad2(monthIndex + 1)) + "-" + Pad2(day) + ".md"
  }

  lemma ToLowerDigits(s: string)
    requires forall k :: 0 <= k < |s| ==> IsDigit(s[k])
    ensures ToLower(s) == s
  {
  }

  /** The popup asks for the file the server reads through `getTodayFilePath`. */
  lemma TodayFilenameMatchesServer(year: nat, monthIndex: nat, day: nat)
    ensures TodayFilename(year, monthIndex, day) == Dates.DailyLogFileName(year, monthIndex, day)
  {
    ToLowerDigits(Pad2(monthIndex + 1));
  }

  /** The repository path `fetchTodayLog` requests, as written: the directory is fixed
      at `logs/2026/feb` whatever the date. */
  function FetchPathAsWritten(filename: string): seq<string> {
    ["logs", "2026", "feb", filename]
  }

  /** As written, the request never names the server's log file, for any date:
      the server's month directory is made of digits and `feb` is not. */
  lemma FetchPathAsWrittenMissesLog(year: nat, monthIndex: nat, day: nat)
    ensures FetchPathAsWritten(TodayFilename(year, monthIndex, day))
            != Dates.TodayFilePath("logs", year, monthIndex, day).file
  {
    var p := Dates.TodayFilePath("logs", year, monthIndex, day);
    var month := Pad2(monthIndex + 1);
    assert p.file[2] == month;
    assert |month| > 0 ==> IsDigit(month[0]);
    assert FetchPathAsWritten(TodayFilename(year, monthIndex, day))[2] != month;
  }

  /** The path the popup means to request: the year and month directories of the date
      the file is named after, laid out as the server lays them out. */
  function FetchPath(year: nat, monthIndex: nat, day: nat): seq<string> {
    ["logs", NatToString(year), ToLower(Pad2(monthIndex + 1)), TodayFilename(year, monthIndex, day)]
  }

  /** The corrected request names exactly the server's log file for that date. */
  lemma FetchPathFindsLog(year: nat, monthIndex: nat, day: nat)
    ensures FetchPath(year, monthIndex, day) == Dates.TodayFilePath("logs", year, monthIndex, day).file
  {
    ToLowerDigits(Pad2(monthIndex + 1));
    TodayFilenameMatchesServer(year, monthIndex, day);
  }

  // ---------------------------------------------------------------- quick add

  /** The four lists the quick add keeps. */
  datatype Buckets = Buckets(completed: seq<string>, learning: seq<string>,
                             inProgress: seq<string>, blockers: seq<string>)

  /** `getDefaultData()`. */
  function DefaultData(): (d: Buckets)
    ensures forall b :: Items(d, b) == []
  {
    Buckets([], [], [], [])
  }

  function Items(d: Buckets, b: Bucket): seq<string> {
    match b
    case Completed => d.completed
    case Learning => d.learning
    case InProgress => d.inProgress
    case Blockers => d.blockers
  }

  /** The bucket a form `type` names: `completed`, `learning`, `in-progress` or
      `blocker`; any other value names none. */
  function TypeBucket(kind: string): Option<Bucket> {
    if kind == "completed" then Some(Completed)
    else if kind == "learning" then Some(Learning)
    else if kind == "in-progress" then Some(InProgress)
    else if kind == "blocker" then Some(Blockers)
    else None
  }

  /** The `switch (type)` of `addToTodayData`. */
  function QuickAdd(d: Buckets, kind: string, item: string): Buckets {
    match kind
    case "completed" => d.(completed := d.completed + [item])
    case "learning" => d.(learning := d.learning + [item])
    case "in-progress" => d.(inProgress := d.inProgress + [item])
    case "blocker" => d.(blockers := d.blockers + [item])
    case _ => d
  }

  /** A quick add appends exactly one item to the list its type names and leaves the
      others as they were; an unknown type appends nothing. */
  lemma QuickAddAppendsOne(d: Buckets, kind: string, item: string)
    ensures forall b :: Items(QuickAdd(d, kind, item), b)
                     == Items(d, b) + (if TypeBucket(kind) == Some(b) then [item] else [])
  {
    forall b
      ensures Items(QuickAdd(d, kind, item), b) == Items(d, b) + (if TypeBucket(kind) == Some(b) then [item] else [])
    {
      if TypeBucket(kind) != Some(b) {
        assert Items(d, b) + [] == Items(d, b);
      }
    }
  }

  /** The same description added twice is kept twice. */
  lemma QuickAddNoDedup(d: Buckets, kind: string, item: string)
    requires TypeBucket(kind).Some?
    ensures var b := TypeBucket(kind).value;
      Items(QuickAdd(QuickAdd(d, kind, item), kind, item), b) == Items(d, b) + [item, item]
  {
    QuickAddAppendsOne(d, kind, item);
    QuickAddAppendsOne(QuickAdd(d, kind, item), kind, item);
  }

  /** The lists a quick add starts from: the stored ones when they were stored today
      (the defaults when none were), the defaults otherwise. */
  function StartOfDay(stored: Option<Buckets>, storedDate: Option<string>, today: string): Buckets {
    if storedDate == Some(today) then
      match stored
      case Some(d) => d
      case None => DefaultData()
    else DefaultData()
  }

  /** `[${timestamp}] ${description}`. */
  function Stamped(time: string, description: string): string {
    "[" + time + "] " + description
  }

  /** One cached parse: the data and when it was stored (`Date.now()`). */
  datatype CacheEntry = CacheEntry(data: DailyLog, timestamp: int)

  /** Five minutes, in milliseconds. */
  const CacheTtl: int := 5 * 60 * 1000

  /** `getCachedData`: a hit iff there is an entry for the file that is younger than
      five minutes. */
  function CacheLookup(cache: map<string, CacheEntry>, filename: string, now: int): (r: Option<DailyLog>)
    ensures r.Some? ==> filename in cache && r.value == cache[filename].data
    ensures filename !in cache ==> r.None?
  {
    if filename in cache && now - cache[filename].timestamp < CacheTtl then Some(cache[filename].data)
    else None
  }

  /** A stored parse is served for five minutes, and not after. */
  lemma StoredThenLooked(cache: map<string, CacheEntry>, filename: string, data: DailyLog, stored: int, now: int)
    ensures CacheLookup(cache[filename := CacheEntry(data, stored)], filename, now)
      == if now - stored < 300000 then Some(data) else None
  {
  }

  /** Storing one file's parse leaves every other file's lookup as it was. */
  lemma StoreKeepsOthers(cache: map<string, CacheEntry>, filename: string, other: string, data: DailyLog, stored: int, now: int)
    requires other != filename
    ensures CacheLookup(cache[filename := CacheEntry(data, stored)], other, now) == CacheLookup(cache, other, now)
  {
  }

  /** Once an entry has expired it stays expired. */
  lemma ExpiredStaysExpired(cache: map<string, CacheEntry>, filename: string, now: int, later: int)
    requires now <= later && CacheLookup(cache, filename, now).None?
    ensures CacheLookup(cache, filename, later).None?
  {
  }

  /** What the fetch gave: the parsed log, `null` for a file that does not exist yet, or
      an error for any other failure. */
  datatype FetchResult = Loaded(data: DailyLog) | NotFound | HttpError(status: int)

  /** The status and body of the raw-content response. */
  datatype Response = Response(status: int, body: string)

  /** `response.ok`. */
  predicate IsOk(status: int) {
    200 <= status <= 299
  }

  /** The decision of `fetchTodayLog` and the cache it leaves: a hit is returned as it
      is; on a miss, an OK response is parsed and cached (at `fetchedAt`), a 404 gives
      "not found" and any other status an error. */
  function Fetched(cache: map<string, CacheEntry>, filename: string, now: int, response: Response, fetchedAt: int)
    : (FetchResult, map<string, CacheEntry>)
  {
    match CacheLookup(cache, filename, now)
    case Some(d) => (Loaded(d), cache)
    case None =>
      if IsOk(response.status) then
        var parsed := ParsedDaily(response.body);
        (Loaded(parsed), cache[filename := CacheEntry(parsed, fetchedAt)])
      else if response.status == 404 then (NotFound, cache)
      else (HttpError(response.status), cache)
  }

  /** After a fresh parse, fetching the same file again within five minutes gives the
      same data from the cache, whatever the network would answer, and changes nothing. */
  lemma RefetchHitsCache(cache: map<string, CacheEntry>, filename: string, now: int, response: Response,
                         fetchedAt: int, again: int, response2: Response, fetchedAt2: int)
    requires CacheLookup(cache, filename, now).None? && IsOk(response.status)
    requires again - fetchedAt < 300000
    ensures var (r1, c1) := Fetched(cache, filename, now, response, fetchedAt);
      Fetched(c1, filename, again, response2, fetchedAt2) == (r1, c1)
  {
    StoredThenLooked(cache, filename, ParsedDaily(response.body), fetchedAt, again);
  }

  /** A missing file is "not found", never an empty parsed log, and is not cached. */
  lemma MissingIsNotFound(cache: map<string, CacheEntry>, filename: string, now: int, body: string, fetchedAt: int)
    requires CacheLookup(cache, filename, now).None?
    ensures Fetched(cache, filename, now, Response(404, body), fetchedAt) == (NotFound, cache)
  {
  }

  /** `chrome.storage.local` as the popup uses it. */
  class ExtensionStorage {
    var todayData: Option<Buckets>
    var todayDate: Option<string>
    var cache: map<string, CacheEntry>

    constructor ()
      ensures todayData == None && todayDate == None && cache == map[]
    {
      todayData, todayDate, cache := None, None, map[];
    }

    function CachedData(filename: string, now: int): Option<DailyLog>
      reads this
    {
      CacheLookup(cache, filename, now)
    }

    /** `cacheData(filename, data)`: that file's entry is overwritten, stamped `now`. */
    method CacheData(filename: string, data: DailyLog, now: int)
      modifies this
      ensures cache == old(cache)[filename := CacheEntry(data, now)]
      ensures todayData == old(todayData) && todayDate == old(todayDate)
    {
      cache := cache[filename := CacheEntry(data, now)];
    }

    /** `addToTodayData(type, description)`: the day's lists (reset on a new day) with
      the stamped description appended, stored under today's name. */
    method AddToTodayData(kind: string, description: string, year: nat, monthIndex: nat, day: nat, time: string)
      modifies this
      ensures var today := TodayFilename(year, monthIndex, day);
        && todayDate == Some(today)
        && todayData == Some(QuickAdd(StartOfDay(old(todayData), old(todayDate), today), kind, Stamped(time, description)))
      ensures cache == old(cache)
    {
      var today := TodayFilename(year, monthIndex, day);
      var isToday := todayDate == Some(today);
      var data := if isToday then (if todayData.Some? then todayData.value else DefaultData()) else DefaultData();
      var item := "[" + time + "] " + description;
      match kind {
        case "completed" => data := data.(completed := data.completed + [item]);
        case "learning" => data := data.(learning := data.learning + [item]);
        case "in-progress" => data := data.(inProgress := data.inProgress + [item]);
        case "blocker" => data := data.(blockers := data.blockers + [item]);
        case _ =>
      }
      todayData, todayDate := Some(data), Some(today);
    }

    /** `handleQuickAdd`: a description that is blank once trimmed changes nothing;
        otherwise the trimmed description is added. */
    method HandleQuickAdd(kind: string, input: string, year: nat, monthIndex: nat, day: nat, time: string)
      modifies this
      ensures Trim(input) == [] ==> todayData == old(todayData) && todayDate == old(todayDate)
      ensures var today := TodayFilename(year, monthIndex, day);
              Trim(input) != [] ==>
                todayDate == Some(today) &&
                todayData == Some(QuickAdd(StartOfDay(old(todayData), old(todayDate), today), kind, Stamped(time, Trim(input))))
      ensures cache == old(cache)
    {
      var description := Trim(input);
      if description == [] {
        return;
      }
      AddToTodayData(kind, description, year, monthIndex, day, time);
    }

    /** `fetchTodayLog(filename)`: the cache is consulted at `now`; on a miss the
        response decides, and a parse is cached at `fetchedAt`. `response` is the
        answer to the request the popup makes (see `FetchPathAsWritten`). */
    method FetchTodayLog(filename: string, now: int, response: Response, fetchedAt: int) returns (r: FetchResult)
      modifies this
      ensures (r, cache) == Fetched(old(cache), filename, now, response, fetchedAt)
      ensures todayData == old(todayData) && todayDate == old(todayDate)
    {
      var cached := CachedData(filename, now);
      if cached.Some? {
        return Loaded(cached.value);
      }
      if !IsOk(response.status) {
        if response.status == 404 {
          return NotFound;
        }
        return HttpError(response.status);
      }
      var parsed := ParseDailyLog(response.body);
      CacheData(filename, parsed, fetchedAt);
      r := Loaded(parsed);
    }
  }

  /** On a new day the stored lists are dropped: after one quick add the lists hold
      only the new item. */
  lemma NewDayStartsEmpty(stored: Option<Buckets>, storedDate: Option<string>, today: string,
                          kind: string, item: string)
    requires storedDate != Some(today)
    ensures forall b :: Items(QuickAdd(StartOfDay(stored, storedDate, today), kind, item), b)
                     == if TypeBucket(kind) == Some(b) then [item] else []
  {
    QuickAddAppendsOne(DefaultData(), kind, item);
  }

  /** On the same day the stored lists are kept and grow by the new item. */
  lemma SameDayKeeps(stored: Buckets, today: string, kind: string, item: string)
    ensures forall b :: Items(QuickAdd(StartOfDay(Some(stored), Some(today), today), kind, item), b)
                     == Items(stored, b) + (if TypeBucket(kind) == Some(b) then [item] else [])
  {
    QuickAddAppendsOne(stored, kind, item);
  }
}
