/** The server's daily log (server.js): `parseLog` reads the Markdown of a day into
    frontmatter and sections, `generateMarkdown` stamps the frontmatter, appends new
    entries to the four task sections and returns the Markdown text (nothing in
    server.js calls it). */
module ServerLog {
  import opened Text
  import opened Markdown

  // ---------------------------------------------------------------- ordered dictionaries

  /** A JavaScript object used as a dictionary: its (key, value) entries in insertion
      order, which is the order `Object.entries` reports. */
  type Dict<V> = seq<(string, V)>

  function Keys<V>(d: Dict<V>): (ks: seq<string>)
    ensures |ks| == |d|
  {
    if d == [] then [] else [d[0].0] + Keys(d[1..])
  }

  /** No key is filed twice. */
  predicate KeysUnique<V>(d: Dict<V>) {
    d == [] || (d[0].0 !in Keys(d[1..]) && KeysUnique(d[1..]))
  }

  /** `d[k]`: the value filed under `k`, if there is one. */
  function Lookup<V>(d: Dict<V>, k: string): (r: Option<V>)
    ensures r.None? <==> k !in Keys(d)
  {
    if d == [] then None else if d[0].0 == k then Some(d[0].1) else Lookup(d[1..], k)
  }

  /** `d[k] = v`: a key already present keeps its place and takes the new value, a new
      key goes at the end; nothing else changes. */
  function Assign<V>(d: Dict<V>, k: string, v: V): (r: Dict<V>)
    ensures Lookup(r, k) == Some(v)
    ensures forall k' :: k' != k ==> Lookup(r, k') == Lookup(d, k')
  {
    if d == [] then [(k, v)]
    else if d[0].0 == k then [(k, v)] + d[1..]
    else [d[0]] + Assign(d[1..], k, v)
  }

  /** Assigning keeps the order of the keys, a new key coming last. */
  lemma {:induction false} AssignKeys<V>(d: Dict<V>, k: string, v: V)
    ensures Keys(Assign(d, k, v)) == if k in Keys(d) then Keys(d) else Keys(d) + [k]
    decreases |d|
  {
    if d != [] && d[0].0 != k {
      AssignKeys(d[1..], k, v);
      assert Assign(d, k, v)[1..] == Assign(d[1..], k, v);
    }
  }

  /** Assigning never files a key twice. */
  lemma {:induction false} AssignKeepsUnique<V>(d: Dict<V>, k: string, v: V)
    ensures KeysUnique(d) ==> KeysUnique(Assign(d, k, v))
    decreases |d|
  {
    if d != [] && d[0].0 != k {
      AssignKeepsUnique(d[1..], k, v);
      AssignKeys(d[1..], k, v);
      assert Assign(d, k, v)[1..] == Assign(d[1..], k, v);
    }
  }

  /** `d[k] || []` for a dictionary of lists. */
  function ItemsOf(d: Dict<seq<string>>, k: string): seq<string> {
    match Lookup(d, k)
    case None => []
    case Some(items) => items
  }

  // ---------------------------------------------------------------- the log's data

  /** A frontmatter value: text (everything `parseLog` reads back), or one of the
      numbers and lists of a new log's defaults. */
  datatype FmValue = Str(text: string) | Num(n: nat) | List(items: seq<string>)

  /** `{ frontmatter, sections }` as a value: the section dictionary maps a lower-cased
      title to its items. */
  datatype LogDoc = LogDoc(frontmatter: Dict<FmValue>, sections: Dict<seq<string>>)

  /** The object `parseLog` returns and `generateMarkdown` updates in place. */
  class LogData {
    var frontmatter: Dict<FmValue>
    var sections: Dict<seq<string>>

    function Doc(): LogDoc
      reads this
    {
      LogDoc(frontmatter, sections)
    }

    predicate Valid()
      reads this
    {
      KeysUnique(frontmatter) && KeysUnique(sections)
    }

    constructor ()
      ensures frontmatter == [] && sections == []
    {
      frontmatter := [];
      sections := [];
    }

    /** The frontmatter loop of `parseLog`: each line in turn goes into `frontmatter`. */
    method ReadFrontmatter(lines: seq<string>)
      modifies this
      ensures frontmatter == FrontmatterFrom(old(frontmatter), lines)
      ensures sections == old(sections)
      ensures old(Valid()) ==> Valid()
    {
      var fm := frontmatter;
      var i := 0;
      while i < |lines|
        invariant 0 <= i <= |lines|
        invariant FrontmatterFrom(fm, lines[i..]) == FrontmatterFrom(old(frontmatter), lines)
        invariant unchanged(this)
      {
        FrontmatterFromStep(fm, lines, i);
        fm := ReadFrontmatterLine(fm, lines[i]);
        i := i + 1;
      }
      assert lines[i..] == [];
      frontmatter := fm;
    }

    /** The section loop of `parseLog`: each segment with a first line is filed under
        it, in turn. */
    method ReadSections(segments: seq<string>)
      modifies this
      ensures sections == SectionsFrom(old(sections), segments)
      ensures frontmatter == old(frontmatter)
      ensures old(Valid()) ==> Valid()
    {
      var secs := sections;
      var j := 0;
      while j < |segments|
        invariant 0 <= j <= |segments|
        invariant SectionsFrom(secs, segments[j..]) == SectionsFrom(old(sections), segments)
        invariant unchanged(this)
      {
        SectionsFromStep(secs, segments, j);
        secs := ReadSegment(secs, segments[j]);
        j := j + 1;
      }
      assert segments[j..] == [];
      sections := secs;
    }
  }

  // ---------------------------------------------------------------- parseLog

  /** One turn of the frontmatter loop. */
  method ReadFrontmatterLine(fm: Dict<FmValue>, line: string) returns (r: Dict<FmValue>)
    ensures r == FrontmatterEntry(fm, line)
  {
    r := fm;
    var parts := Split(line, ':');
    if parts[0] != [] && |parts| > 1 {
      var value := Trim(Join(parts[1..], ":"));
      r := Assign(r, Trim(parts[0]), Str(value));
    }
  }

  /** One turn of the section loop. */
  method ReadSegment(secs: Dict<seq<string>>, segment: string) returns (r: Dict<seq<string>>)
    ensures r == SectionEntry(secs, segment)
  {
    r := secs;
    match FirstLine(segment) {
      case None =>
      case Some(line) =>
        var title := ToLower(Trim(line));
        r := Assign(r, title, SegmentItems(segment));
    }
  }

  /** One frontmatter line: split on `:`; when the first piece is not empty and there
      is at least one more, the trimmed first piece is the key and the remaining pieces,
      joined back with `:` and trimmed, the value. */
  function FrontmatterEntry(fm: Dict<FmValue>, line: string): (r: Dict<FmValue>)
    ensures KeysUnique(fm) ==> KeysUnique(r)
  {
    var parts := Split(line, ':');
    if parts[0] != [] && |parts| > 1 then
      var key := Trim(parts[0]);
      var value := Str(Trim(Join(parts[1..], ":")));
      AssignKeepsUnique(fm, key, value);
      Assign(fm, key, value)
    else fm
  }

  /** Every value of the dictionary is text. */
  ghost predicate TextValues(fm: Dict<FmValue>) {
    forall k :: Lookup(fm, k).Some? ==> Lookup(fm, k).value.Str?
  }

  /** The frontmatter after reading `lines` in order into `fm`. */
  function FrontmatterFrom(fm: Dict<FmValue>, lines: seq<string>): (r: Dict<FmValue>)
    ensures KeysUnique(fm) ==> KeysUnique(r)
    decreases |lines|
  {
    if lines == [] then fm else FrontmatterFrom(FrontmatterEntry(fm, lines[0]), lines[1..])
  }

  /** Reading lines only ever files text values. */
  lemma {:induction false} FrontmatterFromText(fm: Dict<FmValue>, lines: seq<string>)
    requires TextValues(fm)
    ensures TextValues(FrontmatterFrom(fm, lines))
    decreases |lines|
  {
    if lines != [] {
      var next := FrontmatterEntry(fm, lines[0]);
      assert TextValues(next) by {
        var parts := Split(lines[0], ':');
        if parts[0] != [] && |parts| > 1 {
          forall k | Lookup(next, k).Some?
            ensures Lookup(next, k).value.Str?
          {
            if k != Trim(parts[0]) {
              assert Lookup(next, k) == Lookup(fm, k);
            }
          }
        }
      }
      FrontmatterFromText(next, lines[1..]);
    }
  }

  /** The frontmatter `parseLog` reads: nothing without a `---\n…\n---` block, otherwise
      the block's lines in order; every value is text and no key is filed twice. */
  function ParseFrontmatter(markdown: string): (fm: Dict<FmValue>)
    ensures FrontmatterBody(markdown).None? ==> fm == []
    ensures KeysUnique(fm)
    ensures TextValues(fm)
  {
    match FrontmatterBody(markdown)
    case None => []
    case Some(body) =>
      FrontmatterFromText([], Split(body, '\n'));
      FrontmatterFrom([], Split(body, '\n'))
  }

  /** How one line is read, stated on the line itself: it is cut at its first colon;
      a line without a colon, or whose colon comes first, is skipped. */
  lemma FrontmatterLineRule(fm: Dict<FmValue>, line: string)
    ensures ':' !in line ==> FrontmatterEntry(fm, line) == fm
    ensures ':' in line ==>
      var c := FirstIndexOf(line, ':');
      FrontmatterEntry(fm, line)
        == if c == 0 then fm else Assign(fm, Trim(line[..c]), Str(Trim(line[c + 1..])))
  {
    if ':' in line {
      var c := FirstIndexOf(line, ':');
      var parts := Split(line, ':');
      assert parts[0] == line[..c];
      assert parts[1..] == Split(line[c + 1..], ':');
      SplitJoin(line[c + 1..], ':');
    }
  }

  /** One segment of the section split: a segment with a first line is filed under
      that line, trimmed and lower-cased, with its bullet items, replacing whatever was
      filed under that title before. */
  function SectionEntry(secs: Dict<seq<string>>, segment: string): (r: Dict<seq<string>>)
    ensures KeysUnique(secs) ==> KeysUnique(r)
  {
    match SegmentTitle(segment)
    case None => secs
    case Some(title) =>
      AssignKeepsUnique(secs, title, SegmentItems(segment));
      Assign(secs, title, SegmentItems(segment))
  }

  /** The sections after reading `segments` in order into `secs`. */
  function SectionsFrom(secs: Dict<seq<string>>, segments: seq<string>): (r: Dict<seq<string>>)
    ensures KeysUnique(secs) ==> KeysUnique(r)
    decreases |segments|
  {
    if segments == [] then secs else SectionsFrom(SectionEntry(secs, segments[0]), segments[1..])
  }

  function ParseSections(markdown: string): (secs: Dict<seq<string>>)
    ensures KeysUnique(secs)
  {
    SectionsFrom([], SplitSections(markdown))
  }

  /** What `parseLog(markdown)` returns. */
  function ParseLogDoc(markdown: string): LogDoc {
    LogDoc(ParseFrontmatter(markdown), ParseSections(markdown))
  }

  /** The last segment titled `title`, if any. */
  function LastTitled(segments: seq<string>, title: string): (r: Option<nat>)
    ensures r.Some? ==> r.value < |segments| && SegmentTitle(segments[r.value]) == Some(title)
    ensures r.Some? ==> forall j :: r.value < j < |segments| ==> SegmentTitle(segments[j]) != Some(title)
    ensures r.None? ==> forall j :: 0 <= j < |segments| ==> SegmentTitle(segments[j]) != Some(title)
    decreases |segments|
  {
    if segments == [] then None
    else match LastTitled(segments[1..], title)
      case Some(i) => Some(i + 1)
      case None => if SegmentTitle(segments[0]) == Some(title) then Some(0) else None
  }

  /** A title's items are those of the last segment with that title: a later segment
      with the same title replaces the earlier one's items. */
  lemma {:induction false} SectionsFromLookup(secs: Dict<seq<string>>, segments: seq<string>, title: string)
    ensures Lookup(SectionsFrom(secs, segments), title)
      == match LastTitled(segments, title)
         case None => Lookup(secs, title)
         case Some(i) => Some(SegmentItems(segments[i]))
    decreases |segments|
  {
    if segments != [] {
      SectionsFromLookup(SectionEntry(secs, segments[0]), segments[1..], title);
    }
  }

  lemma FrontmatterFromStep(fm: Dict<FmValue>, lines: seq<string>, i: nat)
    requires i < |lines|
    ensures FrontmatterFrom(fm, lines[i..]) == FrontmatterFrom(FrontmatterEntry(fm, lines[i]), lines[i + 1..])
  {
    assert lines[i..][1..] == lines[i + 1..];
  }

  lemma SectionsFromStep(secs: Dict<seq<string>>, segments: seq<string>, j: nat)
    requires j < |segments|
    ensures SectionsFrom(secs, segments[j..]) == SectionsFrom(SectionEntry(secs, segments[j]), segments[j + 1..])
  {
    assert segments[j..][1..] == segments[j + 1..];
  }

  /** `parseLog`: both dictionaries are filled in document order. */
  method ParseLog(markdown: string) returns (data: LogData)
    ensures fresh(data) && data.Valid()
    ensures data.Doc() == ParseLogDoc(markdown)
  {
    data := new LogData();
    match FrontmatterBody(markdown) {
      case None =>
      case Some(body) =>
        data.ReadFrontmatter(Split(body, '\n'));
    }
    data.ReadSections(SplitSections(markdown));
  }

  // ---------------------------------------------------------------- generateMarkdown

  /** The entries of a request (`newData`): one list per task kind, a missing list
      being empty. */
  datatype Entries = Entries(completed: seq<string>, learning: seq<string>,
                             inProgress: seq<string>, blockers: seq<string>)

  /** The frontmatter of a log that did not exist yet. */
  function DefaultFrontmatter(isoDate: string, timestamp: string): Dict<FmValue> {
    [("date", Str(isoDate)), ("updated", Str(timestamp)), ("hours_active", Num(0)),
     ("hours_coding", Num(0)), ("commits_today", Num(0)), ("projects", List([])),
     ("tags", List([]))]
  }

  /** What a section holds after `items` were offered to it: appended after its
      existing items, or nothing changes when there are none. */
  function Added(secs: Dict<seq<string>>, key: string, items: seq<string>): Option<seq<string>> {
    if items == [] then Lookup(secs, key) else Some(ItemsOf(secs, key) + items)
  }

  /** `sections[key] = [...(sections[key] || []), ...items]` when `items` is not empty. */
  function AddItems(secs: Dict<seq<string>>, key: string, items: seq<string>): (r: Dict<seq<string>>)
    ensures Lookup(r, key) == Added(secs, key, items)
    ensures forall k :: k != key ==> Lookup(r, k) == Lookup(secs, k)
    ensures KeysUnique(secs) ==> KeysUnique(r)
  {
    if items == [] then secs
    else
      AssignKeepsUnique(secs, key, ItemsOf(secs, key) + items);
      Assign(secs, key, ItemsOf(secs, key) + items)
  }

  /** The four section keys that take entries. */
  predicate IsTaskKey(k: string) {
    k == "completed tasks" || k == "research & learning" || k == "in progress" || k == "blockers"
  }

  /** The four additions of `generateMarkdown`, in its order (see `ApplyEntriesSections`). */
  function ApplyEntries(secs: Dict<seq<string>>, e: Entries): (r: Dict<seq<string>>)
    ensures KeysUnique(secs) ==> KeysUnique(r)
  {
    var s1 := AddItems(secs, "completed tasks", e.completed);
    var s2 := AddItems(s1, "research & learning", e.learning);
    var s3 := AddItems(s2, "in progress", e.inProgress);
    AddItems(s3, "blockers", e.blockers)
  }

  /** Each list of entries goes to its own section, every other section is left as
      it was. */
  lemma ApplyEntriesSections(secs: Dict<seq<string>>, e: Entries)
    ensures var r := ApplyEntries(secs, e);
      && Lookup(r, "completed tasks") == Added(secs, "completed tasks", e.completed)
      && Lookup(r, "research & learning") == Added(secs, "research & learning", e.learning)
      && Lookup(r, "in progress") == Added(secs, "in progress", e.inProgress)
      && Lookup(r, "blockers") == Added(secs, "blockers", e.blockers)
      && forall k :: !IsTaskKey(k) ==> Lookup(r, k) == Lookup(secs, k)
  {
    var s1 := AddItems(secs, "completed tasks", e.completed);
    var s2 := AddItems(s1, "research & learning", e.learning);
    var s3 := AddItems(s2, "in progress", e.inProgress);
    TaskKeysDiffer();
    // each section is untouched by the additions after its own
    AddedElsewhere(s1, "completed tasks", "research & learning", e.learning);
    AddedElsewhere(s2, "completed tasks", "in progress", e.inProgress);
    AddedElsewhere(s3, "completed tasks", "blockers", e.blockers);
    AddedElsewhere(s2, "research & learning", "in progress", e.inProgress);
    AddedElsewhere(s3, "research & learning", "blockers", e.blockers);
    AddedElsewhere(s3, "in progress", "blockers", e.blockers);
    // and by the additions before it
    AddedElsewhere(secs, "research & learning", "completed tasks", e.completed);
    AddedElsewhere(secs, "in progress", "completed tasks", e.completed);
    AddedElsewhere(s1, "in progress", "research & learning", e.learning);
    AddedElsewhere(secs, "blockers", "completed tasks", e.completed);
    AddedElsewhere(s1, "blockers", "research & learning", e.learning);
    AddedElsewhere(s2, "blockers", "in progress", e.inProgress);
    AddedSame(s1, secs, "research & learning", e.learning);
    AddedSame(s2, secs, "in progress", e.inProgress);
    AddedSame(s3, secs, "blockers", e.blockers);
  }

  lemma AddedSame(s: Dict<seq<string>>, t: Dict<seq<string>>, key: string, items: seq<string>)
    requires Lookup(s, key) == Lookup(t, key)
    ensures Added(s, key, items) == Added(t, key, items)
  {
  }

  lemma AddedElsewhere(secs: Dict<seq<string>>, k: string, key: string, items: seq<string>)
    requires k != key
    ensures Lookup(AddItems(secs, key, items), k) == Lookup(secs, k)
  {
  }

  /** The four task keys are pairwise different (their lengths are). */
  lemma TaskKeysDiffer()
    ensures "completed tasks" != "research & learning" && "completed tasks" != "in progress"
    ensures "completed tasks" != "blockers" && "research & learning" != "in progress"
    ensures "research & learning" != "blockers" && "in progress" != "blockers"
  {
    assert |"completed tasks"| == 15 && |"research & learning"| == 19;
    assert |"in progress"| == 11 && |"blockers"| == 8;
  }

  /** The log `generateMarkdown` writes, as data: the existing one (or a new one) with
      `updated` stamped and the entries added. */
  function GeneratedDoc(existing: Option<LogDoc>, newData: Entries, isoDate: string, timestamp: string): LogDoc {
    var base := match existing
      case None => LogDoc(DefaultFrontmatter(isoDate, timestamp), [])
      case Some(doc) => doc;
    LogDoc(Assign(base.frontmatter, "updated", Str(timestamp)), ApplyEntries(base.sections, newData))
  }

  /** An existing log's frontmatter: `updated` takes the call's timestamp, every other
      key keeps its value and all keys keep their order (`updated` coming last if it
      was missing). */
  lemma StampedFrontmatter(existing: LogDoc, newData: Entries, isoDate: string, timestamp: string)
    ensures var fm := GeneratedDoc(Some(existing), newData, isoDate, timestamp).frontmatter;
      && Lookup(fm, "updated") == Some(Str(timestamp))
      && (forall k :: k != "updated" ==> Lookup(fm, k) == Lookup(existing.frontmatter, k))
      && Keys(fm) == if "updated" in Keys(existing.frontmatter) then Keys(existing.frontmatter)
                     else Keys(existing.frontmatter) + ["updated"]
  {
    AssignKeys(existing.frontmatter, "updated", Str(timestamp));
  }

  /** A log that did not exist gets the default keys, in order, `updated` carrying the
      call's timestamp and `date` the given day. */
  lemma NewLogFrontmatter(newData: Entries, isoDate: string, timestamp: string)
    ensures var fm := GeneratedDoc(None, newData, isoDate, timestamp).frontmatter;
      Keys(fm) == ["date", "updated", "hours_active", "hours_coding", "commits_today", "projects", "tags"]
      && Lookup(fm, "date") == Some(Str(isoDate)) && Lookup(fm, "updated") == Some(Str(timestamp))
  {
    var f := DefaultFrontmatter(isoDate, timestamp);
    var g := Assign(f, "updated", Str(timestamp));
    assert g == f by {
      assert Assign(f[1..], "updated", Str(timestamp)) == f[1..];
    }
    assert Lookup(f, "date") == Some(Str(isoDate));
    DefaultKeys(isoDate, timestamp);
  }

  lemma DefaultKeys(isoDate: string, timestamp: string)
    ensures Keys(DefaultFrontmatter(isoDate, timestamp))
      == ["date", "updated", "hours_active", "hours_coding", "commits_today", "projects", "tags"]
  {
    var f := DefaultFrontmatter(isoDate, timestamp);
    assert Keys(f[6..]) == ["tags"];
    assert Keys(f[5..]) == ["projects", "tags"];
    assert Keys(f[4..]) == ["commits_today", "projects", "tags"];
    assert Keys(f[3..]) == ["hours_coding", "commits_today", "projects", "tags"];
    assert Keys(f[2..]) == ["hours_active", "hours_coding", "commits_today", "projects", "tags"];
    assert Keys(f[1..]) == ["updated", "hours_active", "hours_coding", "commits_today", "projects", "tags"];
  }

  /** `${value}` for a number or a string (a list never reaches it). */
  function ScalarText(v: FmValue): string {
    match v
    case Str(s) => s
    case Num(n) => NatToString(n)
    case List(xs) => Join(xs, ",")
  }

  /** A value as a frontmatter line shows it: a list as `[a, b, c]`. */
  function ValueText(v: FmValue): string {
    if v.List? then "[" + Join(v.items, ", ") + "]" else ScalarText(v)
  }

  /** `${key}: ${value}\n`. */
  function FrontmatterLine(key: string, v: FmValue): string {
    key + ": " + ValueText(v) + "\n"
  }

  function FrontmatterLines(fm: Dict<FmValue>): string
    decreases |fm|
  {
    if fm == [] then "" else FrontmatterLine(fm[0].0, fm[0].1) + FrontmatterLines(fm[1..])
  }

  /** The frontmatter block: `---\n`, one line per entry in order, `---\n\n`. */
  function RenderFrontmatter(fm: Dict<FmValue>): string {
    "---\n" + FrontmatterLines(fm) + "---\n\n"
  }

  /** A section `generateMarkdown` knows: its dictionary key and its heading. */
  datatype SectionSpec = SectionSpec(key: string, title: string)

  /** The sections written, in this order; no other key is written. */
  const SectionOrder: seq<SectionSpec> := [
    SectionSpec("activity summary", "## \U{1F4CA} Activity Summary\n\n_Actual stats updated by daily log_"),
    SectionSpec("work analysis", "## \U{1F3AF} Work Analysis"),
    SectionSpec("completed tasks", "### Completed Tasks"),
    SectionSpec("in progress", "### In Progress"),
    SectionSpec("research & learning", "### Research & Learning"),
    SectionSpec("blockers", "### Blockers"),
    SectionSpec("ai insights", "## \U{1F4A1} AI Insights"),
    SectionSpec("tomorrow's plan", "## \U{1F4C5} Tomorrow's Plan")
  ]

  /** `- ${item}\n` for each item. */
  function ItemLines(items: seq<string>): string
    decreases |items|
  {
    if items == [] then "" else "- " + items[0] + "\n" + ItemLines(items[1..])
  }

  /** One section: nothing when its key is absent; otherwise its heading, a blank line,
      its items and a blank line, even when it holds no item. */
  function SectionBlock(secs: Dict<seq<string>>, spec: SectionSpec): string {
    match Lookup(secs, spec.key)
    case None => ""
    case Some(items) => spec.title + "\n\n" + ItemLines(items) + "\n"
  }

  function RenderSections(secs: Dict<seq<string>>, order: seq<SectionSpec>): string
    decreases |order|
  {
    if order == [] then "" else SectionBlock(secs, order[0]) + RenderSections(secs, order[1..])
  }

  /** The Markdown of a log. */
  function RenderLog(doc: LogDoc): string {
    RenderFrontmatter(doc.frontmatter) + RenderSections(doc.sections, SectionOrder)
  }

  /** Only the keys of `order` are written: two dictionaries that agree on them give
      the same text. */
  lemma {:induction false} RenderSectionsOnlyOrdered(s1: Dict<seq<string>>, s2: Dict<seq<string>>, order: seq<SectionSpec>)
    requires forall i :: 0 <= i < |order| ==> Lookup(s1, order[i].key) == Lookup(s2, order[i].key)
    ensures RenderSections(s1, order) == RenderSections(s2, order)
    decreases |order|
  {
    if order != [] {
      assert Lookup(s1, order[0].key) == Lookup(s2, order[0].key);
      RenderSectionsOnlyOrdered(s1, s2, order[1..]);
    }
  }

  /** A section present with no items still gets its heading and blank lines. */
  lemma EmptySectionWritten(secs: Dict<seq<string>>, spec: SectionSpec)
    requires Lookup(secs, spec.key) == Some([])
    ensures SectionBlock(secs, spec) == spec.title + "\n\n\n"
  {
  }

  /** The frontmatter half of `generateMarkdown`'s text. */
  method WriteFrontmatter(frontmatter: Dict<FmValue>) returns (md: string)
    ensures md == RenderFrontmatter(frontmatter)
  {
    md := "---\n";
    var i := 0;
    while i < |frontmatter|
      invariant 0 <= i <= |frontmatter|
      invariant md + FrontmatterLines(frontmatter[i..]) == "---\n" + FrontmatterLines(frontmatter)
    {
      var (key, value) := frontmatter[i];
      ghost var before := md;
      var text := if value.List? then "[" + Join(value.items, ", ") + "]" else ScalarText(value);
      md := md + (key + ": " + text + "\n");
      assert frontmatter[i..][1..] == frontmatter[i + 1..];
      Append3(before, FrontmatterLine(key, value), FrontmatterLines(frontmatter[i + 1..]));
      i := i + 1;
    }
    assert frontmatter[i..] == [];
    md := md + "---\n\n";
  }

  /** One present section: heading, blank line, `- item` lines, blank line. */
  method WriteSection(title: string, items: seq<string>) returns (md: string)
    ensures md == title + "\n\n" + ItemLines(items) + "\n"
  {
    md := title + "\n\n";
    var k := 0;
    while k < |items|
      invariant 0 <= k <= |items|
      invariant md + ItemLines(items[k..]) == title + "\n\n" + ItemLines(items)
    {
      ghost var prev := md;
      md := md + ("- " + items[k] + "\n");
      assert items[k..][1..] == items[k + 1..];
      Append3(prev, "- " + items[k] + "\n", ItemLines(items[k + 1..]));
      k := k + 1;
    }
    assert items[k..] == [];
    md := md + "\n";
  }

  /** One known section: written when its key is present. */
  method WriteBlock(sections: Dict<seq<string>>, spec: SectionSpec) returns (block: string)
    ensures block == SectionBlock(sections, spec)
  {
    block := "";
    match Lookup(sections, spec.key) {
      case None =>
      case Some(items) =>
        block := WriteSection(spec.title, items);
    }
  }

  lemma RenderSectionsStep(secs: Dict<seq<string>>, order: seq<SectionSpec>, j: nat)
    requires j < |order|
    ensures RenderSections(secs, order[j..]) == SectionBlock(secs, order[j]) + RenderSections(secs, order[j + 1..])
  {
    assert order[j..][1..] == order[j + 1..];
  }

  /** The sections half of `generateMarkdown`'s text: the keys of `SectionOrder` that
      are present, in that order. */
  method WriteSections(sections: Dict<seq<string>>) returns (md: string)
    ensures md == RenderSections(sections, SectionOrder)
  {
    md := "";
    var j := 0;
    while j < |SectionOrder|
      invariant 0 <= j <= |SectionOrder|
      invariant md + RenderSections(sections, SectionOrder[j..]) == RenderSections(sections, SectionOrder)
    {
      var block := WriteBlock(sections, SectionOrder[j]);
      RenderSectionsStep(sections, SectionOrder, j);
      Append3(md, block, RenderSections(sections, SectionOrder[j + 1..]));
      md := md + block;
      j := j + 1;
    }
    assert SectionOrder[j..] == [];
  }

  lemma Append3(a: string, b: string, c: string)
    ensures (a + b) + c == a + (b + c)
  {
  }

  /** The four additions of `generateMarkdown`, in its order. */
  method AddEntries(sections: Dict<seq<string>>, newData: Entries) returns (r: Dict<seq<string>>)
    ensures r == ApplyEntries(sections, newData)
  {
    r := sections;
    if newData.completed != [] {
      r := Assign(r, "completed tasks", ItemsOf(r, "completed tasks") + newData.completed);
    }
    ghost var s1 := r;
    if newData.learning != [] {
      r := Assign(r, "research & learning", ItemsOf(r, "research & learning") + newData.learning);
    }
    ghost var s2 := r;
    if newData.inProgress != [] {
      r := Assign(r, "in progress", ItemsOf(r, "in progress") + newData.inProgress);
    }
    ghost var s3 := r;
    if newData.blockers != [] {
      r := Assign(r, "blockers", ItemsOf(r, "blockers") + newData.blockers);
    }
    assert s1 == AddItems(sections, "completed tasks", newData.completed);
    assert s2 == AddItems(s1, "research & learning", newData.learning);
    assert s3 == AddItems(s2, "in progress", newData.inProgress);
    assert r == AddItems(s3, "blockers", newData.blockers);
  }

  /** `generateMarkdown(existingData, newData)`: stamps `updated` into the existing
      frontmatter and adds the entries to the existing sections, both in place, and
      returns the Markdown of the result. */
  method GenerateMarkdown(existing: LogData?, newData: Entries, isoDate: string, timestamp: string)
    returns (md: string)
    requires existing != null ==> existing.Valid()
    modifies existing
    ensures existing != null ==> existing.Valid()
    ensures existing != null ==>
      existing.Doc() == GeneratedDoc(Some(old(existing.Doc())), newData, isoDate, timestamp)
    ensures existing != null ==> md == RenderLog(existing.Doc())
    ensures existing == null ==> md == RenderLog(GeneratedDoc(None, newData, isoDate, timestamp))
  {
    var frontmatter: Dict<FmValue>;
    var sections: Dict<seq<string>>;
    if existing != null {
      frontmatter, sections := existing.frontmatter, existing.sections;
    } else {
      frontmatter, sections := DefaultFrontmatter(isoDate, timestamp), [];
    }
    ghost var target := GeneratedDoc(if existing != null then Some(LogDoc(frontmatter, sections)) else None,
                                     newData, isoDate, timestamp);

    AssignKeepsUnique(frontmatter, "updated", Str(timestamp));
    frontmatter := Assign(frontmatter, "updated", Str(timestamp));
    if existing != null {
      existing.frontmatter := frontmatter;
    }
    md := WriteFrontmatter(frontmatter);

    sections := AddEntries(sections, newData);
    assert LogDoc(frontmatter, sections) == target;
    if existing != null {
      existing.sections := sections;
    }
    var body := WriteSections(sections);
    md := md + body;
  }
}
