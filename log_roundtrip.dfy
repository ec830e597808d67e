/** What `parseLog` reads back from the Markdown `generateMarkdown` returns: for the
    four task sections, `parseLog(generateMarkdown(…))` gives back the items that were written. */
module LogRoundTrip {
  import opened Text
  import opened Markdown
  import opened ServerLog

  // ---------------------------------------------------------------- conditions

  /** An item that survives being written as `- item` and read back: one line, no white
      space at either end. */
  predicate CleanItem(item: string) {
    SingleLine(item) && (item == [] || (!IsSpace(item[0]) && !IsSpace(item[|item| - 1])))
  }

  predicate CleanItems(items: seq<string>) {
    forall i :: 0 <= i < |items| ==> CleanItem(items[i])
  }

  /** The section filed under `k`, if any, holds only clean items. */
  predicate CleanSection(secs: Dict<seq<string>>, k: string) {
    match Lookup(secs, k)
    case None => true
    case Some(items) => CleanItems(items)
  }

  /** None of the `##` sections is present: only `###` headers are written. */
  predicate NoSecondLevel(secs: Dict<seq<string>>) {
    && Lookup(secs, "activity summary").None? && Lookup(secs, "work analysis").None?
    && Lookup(secs, "ai insights").None? && Lookup(secs, "tomorrow's plan").None?
  }

  /** Every task section holds clean items. */
  predicate CleanTaskSections(secs: Dict<seq<string>>) {
    && CleanSection(secs, "completed tasks") && CleanSection(secs, "in progress")
    && CleanSection(secs, "research & learning") && CleanSection(secs, "blockers")
  }

  /** A log that reads back as written: its frontmatter lines cannot be taken for
      headers, only `###` sections are present and their items are clean. */
  predicate Writable(doc: LogDoc) {
    FrontmatterSafe(doc.frontmatter) && NoSecondLevel(doc.sections) && CleanTaskSections(doc.sections)
  }

  /** A frontmatter entry whose line cannot be taken for a header: one line, its key
      not starting with `#`. */
  predicate SafeEntry(key: string, v: FmValue) {
    SingleLine(key) && SingleLine(ValueText(v)) && (key == [] || key[0] != '#')
  }

  predicate FrontmatterSafe(fm: Dict<FmValue>) {
    forall i :: 0 <= i < |fm| ==> SafeEntry(fm[i].0, fm[i].1)
  }

  // ---------------------------------------------------------------- lines

  lemma SingleLineConcat(a: string, b: string)
    requires SingleLine(a) && SingleLine(b)
    ensures SingleLine(a + b)
  {
    forall k | 0 <= k < |a + b|
      ensures !IsLineTerminator((a + b)[k])
    {
      if k >= |a| {
        assert (a + b)[k] == b[k - |a|];
      }
    }
  }

  /** A non-empty first line ending at a line break is what the title match finds. */
  lemma FirstLineOf(a: string, b: string)
    requires a != [] && '\n' !in a
    ensures FirstLine(a + "\n" + b) == Some(a)
  {
    SplitFirstPiece(a, '\n', b);
    assert Split(a + "\n" + b, '\n')[0] == a;
  }

  /** A clean item, written as `- item`, is a bullet line that reads back as the item. */
  lemma BulletOfCleanItem(item: string)
    requires CleanItem(item)
    ensures IsBulletLine("- " + item) && BulletText("- " + item) == item
  {
    var l := "- " + item;
    assert l[0] == '-' && l[1..] == [' '] + item;
    TrimKeepsFirst(l);
    TrimStartSkip(' ', item);
    TrimStartKeeps(item);
    TrimOfTrimmed(item);
  }

  /** The lines `ItemLines` writes, one per item. */
  function BulletLines(items: seq<string>): (lines: seq<string>)
    ensures |lines| == |items|
  {
    if items == [] then [] else ["- " + items[0]] + BulletLines(items[1..])
  }

  /** The written items split into their lines, followed by what comes after them. */
  lemma ItemLinesCons(items: seq<string>, tail: string)
    requires items != []
    ensures ItemLines(items) + tail == ("- " + items[0]) + "\n" + (ItemLines(items[1..]) + tail)
  {
  }

  /** A written item's line is the first piece of the split. */
  lemma SplitBulletLine(item: string, rest: string)
    requires CleanItem(item)
    ensures Split(("- " + item) + "\n" + rest, '\n') == ["- " + item] + Split(rest, '\n')
  {
    var line := "- " + item;
    SingleLineHasNoNewline(item);
    assert '\n' !in line;
    SplitAtSeparator(line, '\n', rest);
  }

  lemma {:induction false} SplitItemLines(items: seq<string>, tail: string)
    requires CleanItems(items)
    ensures Split(ItemLines(items) + tail, '\n') == BulletLines(items) + Split(tail, '\n')
    decreases |items|
  {
    if items == [] {
      assert ItemLines(items) + tail == tail;
    } else {
      SplitItemLines(items[1..], tail);
      SplitItemLinesStep(items, tail);
    }
  }

  lemma SplitItemLinesStep(items: seq<string>, tail: string)
    requires items != [] && CleanItem(items[0])
    requires Split(ItemLines(items[1..]) + tail, '\n') == BulletLines(items[1..]) + Split(tail, '\n')
    ensures Split(ItemLines(items) + tail, '\n') == BulletLines(items) + Split(tail, '\n')
  {
    var line, rest, after := "- " + items[0], ItemLines(items[1..]) + tail, Split(tail, '\n');
    calc {
      Split(ItemLines(items) + tail, '\n');
      { ItemLinesCons(items, tail); }
      Split(line + "\n" + rest, '\n');
      { SplitBulletLine(items[0], rest); }
      [line] + Split(rest, '\n');
      [line] + (BulletLines(items[1..]) + after);
      { BulletLinesCons(items, after); }
      BulletLines(items) + after;
    }
  }

  lemma BulletLinesCons(items: seq<string>, after: seq<string>)
    requires items != []
    ensures BulletLines(items) + after == ["- " + items[0]] + (BulletLines(items[1..]) + after)
  {
  }

  /** Every written line is a bullet that reads back as its item. */
  lemma {:induction false} BulletsOfBulletLines(items: seq<string>)
    requires CleanItems(items)
    ensures BulletItems(BulletLines(items)) == items
    decreases |items|
  {
    if items != [] {
      BulletsOfBulletLines(items[1..]);
      BulletsOfBulletLinesStep(items);
    }
  }

  lemma BulletsOfBulletLinesStep(items: seq<string>)
    requires items != [] && CleanItem(items[0])
    requires BulletItems(BulletLines(items[1..])) == items[1..]
    ensures BulletItems(BulletLines(items)) == items
  {
    var line := "- " + items[0];
    BulletOfCleanItem(items[0]);
    calc {
      BulletItems(BulletLines(items));
      { assert BulletLines(items) == [line] + BulletLines(items[1..]); }
      BulletItems([line] + BulletLines(items[1..]));
      { BulletItemsCons(line, BulletLines(items[1..])); }
      LineItem(line) + BulletItems(BulletLines(items[1..]));
      [items[0]] + items[1..];
      { HeadTail(items); }
      items;
    }
  }

  lemma BulletItemsCons(line: string, rest: seq<string>)
    ensures BulletItems([line] + rest) == LineItem(line) + BulletItems(rest)
  {
    assert ([line] + rest)[0] == line && ([line] + rest)[1..] == rest;
  }

  /** Written items come back, in order, from the lines that follow them. */
  lemma ItemLinesItems(items: seq<string>, tail: string)
    requires CleanItems(items)
    ensures BulletItems(Split(ItemLines(items) + tail, '\n')) == items + BulletItems(Split(tail, '\n'))
  {
    SplitItemLines(items, tail);
    BulletItemsAppend(BulletLines(items), Split(tail, '\n'));
    BulletsOfBulletLines(items);
  }

  // ---------------------------------------------------------------- one section

  /** What the split leaves of a written `### ` section: the heading's name, a blank
      line, the items and a blank line. */
  function SectionSegment(name: string, items: seq<string>): string {
    name + "\n\n" + ItemLines(items) + "\n"
  }

  /** A heading name that reads back as `key`. */
  predicate NameFor(name: string, key: string) {
    && name != [] && SingleLine(name) && !IsSpace(name[0]) && name[0] != '#'
    && !IsBulletLine(name) && ToLower(Trim(name)) == key
  }

  lemma SegmentReadsBack(name: string, key: string, items: seq<string>)
    requires NameFor(name, key) && CleanItems(items)
    ensures SegmentTitle(SectionSegment(name, items)) == Some(key)
    ensures SegmentItems(SectionSegment(name, items)) == items
  {
    SingleLineHasNoNewline(name);
    SegmentTitleOf(name, items);
    SegmentLines(name, items);
    SegmentItemsOf(name, items);
  }

  lemma SegmentTitleOf(name: string, items: seq<string>)
    requires name != [] && '\n' !in name
    ensures SegmentTitle(SectionSegment(name, items)) == Some(ToLower(Trim(name)))
  {
    var tail := "\n" + ItemLines(items) + "\n";
    assert SectionSegment(name, items) == name + "\n" + tail;
    FirstLineOf(name, tail);
  }

  lemma SegmentItemsOf(name: string, items: seq<string>)
    requires !IsBulletLine(name) && CleanItems(items)
    requires Split(SectionSegment(name, items), '\n')
      == [name] + ([[]] + Split(ItemLines(items) + "\n", '\n'))
    ensures SegmentItems(SectionSegment(name, items)) == items
  {
    var lines := Split(ItemLines(items) + "\n", '\n');
    calc {
      BulletItems([name] + ([[]] + lines));
      { BulletItemsCons(name, [[]] + lines); }
      LineItem(name) + BulletItems([[]] + lines);
      { BulletItemsCons([], lines); }
      LineItem(name) + (LineItem([]) + BulletItems(lines));
      { assert LineItem(name) == [] && LineItem([]) == []; }
      BulletItems(lines);
      { ItemLinesItems(items, "\n"); }
      items + BulletItems(Split("\n", '\n'));
      { BlankLineItems(); }
      items;
    }
  }

  /** The lines of a written segment: its name, a blank line, then the item lines. */
  lemma SegmentLines(name: string, items: seq<string>)
    requires '\n' !in name
    ensures Split(SectionSegment(name, items), '\n')
      == [name] + ([[]] + Split(ItemLines(items) + "\n", '\n'))
  {
    var rest := ItemLines(items) + "\n";
    calc {
      Split(SectionSegment(name, items), '\n');
      { assert SectionSegment(name, items) == name + "\n" + ("\n" + rest); }
      Split(name + "\n" + ("\n" + rest), '\n');
      { SplitFirstPiece(name, '\n', "\n" + rest); }
      [name] + Split("\n" + rest, '\n');
      { assert "\n" + rest == [] + "\n" + rest;
        SplitFirstPiece([], '\n', rest); }
      [name] + ([[]] + Split(rest, '\n'));
    }
  }

  /** A lone line break holds no item. */
  lemma BlankLineItems()
    ensures BulletItems(Split("\n", '\n')) == []
  {
    assert "\n" == [] + "\n" + [];
    SplitFirstPiece([], '\n', []);
    assert Split("\n", '\n') == [[], []];
    BulletItemsCons([], [[]]);
  }

  // ---------------------------------------------------------------- no stray headers

  lemma HashSafeItemLines(items: seq<string>)
    requires CleanItems(items)
    ensures HashSafe(ItemLines(items))
    decreases |items|
  {
    if items != [] {
      var line := "- " + items[0];
      SingleLineConcat("- ", items[0]);
      HashSafeLine(line);
      HashSafeConcat(line, "\n");
      HashSafeItemLines(items[1..]);
      HashSafeConcat(line + "\n", ItemLines(items[1..]));
    }
  }

  lemma SegmentSplittable(name: string, key: string, items: seq<string>)
    requires NameFor(name, key) && CleanItems(items)
    ensures SplittableSegment(SectionSegment(name, items))
  {
    var seg := SectionSegment(name, items);
    HashSafeLine(name);
    HashSafeConcat(name, "\n\n");
    HashSafeItemLines(items);
    HashSafeConcat(name + "\n\n", ItemLines(items));
    HashSafeConcat(name + "\n\n" + ItemLines(items), "\n");
    assert seg[0] == name[0];
  }

  lemma HashSafeFrontmatterLines(fm: Dict<FmValue>)
    requires FrontmatterSafe(fm)
    ensures HashSafe(FrontmatterLines(fm))
    decreases |fm|
  {
    if fm != [] {
      var (key, v) := fm[0];
      assert SafeEntry(key, v);
      SingleLineConcat(key, ": ");
      SingleLineConcat(key + ": ", ValueText(v));
      var body := key + ": " + ValueText(v);
      assert body[0] != '#' by {
        if key != [] { assert body[0] == key[0]; } else { assert body[0] == ':'; }
      }
      HashSafeLine(body);
      HashSafeConcat(body, "\n");
      assert FrontmatterSafe(fm[1..]) by {
        forall i | 0 <= i < |fm[1..]| ensures SafeEntry(fm[1..][i].0, fm[1..][i].1) {
          assert fm[1..][i] == fm[i + 1];
        }
      }
      HashSafeFrontmatterLines(fm[1..]);
      HashSafeConcat(body + "\n", FrontmatterLines(fm[1..]));
    }
  }

  lemma HashSafeFrontmatter(fm: Dict<FmValue>)
    requires FrontmatterSafe(fm)
    ensures HashSafe(RenderFrontmatter(fm))
  {
    HashSafeFrontmatterLines(fm);
    HashSafeConcat("---\n", FrontmatterLines(fm));
    HashSafeConcat("---\n" + FrontmatterLines(fm), "---\n\n");
  }

  // ---------------------------------------------------------------- the written sections

  /** What follows a `### ` header's marker. */
  function HeadingName(title: string): string {
    if |title| >= 4 then title[4..] else []
  }

  /** A `### ` heading. */
  predicate ThirdLevelSpec(spec: SectionSpec) {
    |spec.title| >= 4 && spec.title[..4] == "### " && NameFor(HeadingName(spec.title), spec.key)
  }

  predicate ThirdLevelOrder(order: seq<SectionSpec>) {
    forall i :: 0 <= i < |order| ==> ThirdLevelSpec(order[i])
  }

  /** The keys of `order`. */
  function SpecKeys(order: seq<SectionSpec>): seq<string>
    decreases |order|
  {
    if order == [] then [] else [order[0].key] + SpecKeys(order[1..])
  }

  predicate DistinctKeys(order: seq<SectionSpec>)
    decreases |order|
  {
    order == [] || (order[0].key !in SpecKeys(order[1..]) && DistinctKeys(order[1..]))
  }

  /** The segments the present sections of `order` become. */
  function SegmentsOf(secs: Dict<seq<string>>, order: seq<SectionSpec>): seq<string>
    decreases |order|
  {
    if order == [] then []
    else
      var rest := SegmentsOf(secs, order[1..]);
      match Lookup(secs, order[0].key)
      case None => rest
      case Some(items) => [SectionSegment(HeadingName(order[0].title), items)] + rest
  }

  lemma {:induction false} RenderThirdLevel(secs: Dict<seq<string>>, order: seq<SectionSpec>)
    requires ThirdLevelOrder(order)
    ensures RenderSections(secs, order) == Headed(SegmentsOf(secs, order))
    decreases |order|
  {
    if order != [] {
      var spec := order[0];
      assert ThirdLevelSpec(spec);
      var rest := SegmentsOf(secs, order[1..]);
      RenderThirdLevel(secs, order[1..]);
      match Lookup(secs, spec.key)
      case None =>
      case Some(items) =>
        var seg := SectionSegment(HeadingName(spec.title), items);
        calc {
          RenderSections(secs, order);
          SectionBlock(secs, spec) + RenderSections(secs, order[1..]);
          { ThirdLevelBlock(secs, spec, items); }
          ("### " + seg) + Headed(rest);
          { HeadedCons(seg, rest); }
          Headed([seg] + rest);
        }
    }
  }

  /** A present `### ` section is written as its header and its segment. */
  lemma ThirdLevelBlock(secs: Dict<seq<string>>, spec: SectionSpec, items: seq<string>)
    requires |spec.title| >= 4 && spec.title[..4] == "### " && Lookup(secs, spec.key) == Some(items)
    ensures SectionBlock(secs, spec) == "### " + SectionSegment(HeadingName(spec.title), items)
  {
    assert spec.title == "### " + HeadingName(spec.title);
  }

  lemma HeadedCons(seg: string, rest: seq<string>)
    ensures Headed([seg] + rest) == ("### " + seg) + Headed(rest)
  {
    assert ([seg] + rest)[0] == seg && ([seg] + rest)[1..] == rest;
  }

  lemma {:induction false} SegmentsSplittable(secs: Dict<seq<string>>, order: seq<SectionSpec>)
    requires ThirdLevelOrder(order)
    requires forall i :: 0 <= i < |order| ==> CleanSection(secs, order[i].key)
    ensures forall i :: 0 <= i < |SegmentsOf(secs, order)| ==> SplittableSegment(SegmentsOf(secs, order)[i])
    decreases |order|
  {
    if order != [] {
      var spec := order[0];
      assert ThirdLevelSpec(spec) && CleanSection(secs, spec.key);
      assert ThirdLevelOrder(order[1..]) && forall i :: 0 <= i < |order[1..]| ==> CleanSection(secs, order[1..][i].key) by {
        assert forall i :: 0 <= i < |order[1..]| ==> order[1..][i] == order[i + 1];
      }
      SegmentsSplittable(secs, order[1..]);
      match Lookup(secs, spec.key)
      case None =>
      case Some(items) =>
        SegmentSplittable(HeadingName(spec.title), spec.key, items);
        SplittableCons(SectionSegment(HeadingName(spec.title), items), SegmentsOf(secs, order[1..]));
    }
  }

  lemma SplittableCons(g: string, rest: seq<string>)
    requires SplittableSegment(g)
    requires forall i :: 0 <= i < |rest| ==> SplittableSegment(rest[i])
    ensures forall i :: 0 <= i < |[g] + rest| ==> SplittableSegment(([g] + rest)[i])
  {
  }

  lemma {:induction false} SectionsFromAppend(acc: Dict<seq<string>>, a: seq<string>, b: seq<string>)
    ensures SectionsFrom(acc, a + b) == SectionsFrom(SectionsFrom(acc, a), b)
    decreases |a|
  {
    if a == [] {
      assert a + b == b;
    } else {
      assert (a + b)[0] == a[0] && (a + b)[1..] == a[1..] + b;
      SectionsFromAppend(SectionEntry(acc, a[0]), a[1..], b);
    }
  }

  /** Reading the written sections of `order` files each present key under its items
      and leaves every other key as it was. */
  lemma {:induction false} ReadSegments(acc: Dict<seq<string>>, secs: Dict<seq<string>>, order: seq<SectionSpec>, k: string)
    requires ThirdLevelOrder(order) && DistinctKeys(order)
    requires forall i :: 0 <= i < |order| ==> CleanSection(secs, order[i].key)
    requires forall k' :: k' in SpecKeys(order) ==> Lookup(acc, k').None?
    ensures Lookup(SectionsFrom(acc, SegmentsOf(secs, order)), k)
      == if k in SpecKeys(order) then Lookup(secs, k) else Lookup(acc, k)
    decreases |order|
  {
    if order != [] {
      var spec, rest := order[0], order[1..];
      OrderTail(secs, order);
      match Lookup(secs, spec.key)
      case None =>
        ReadSegments(acc, secs, rest, k);
        ReadSkippedStep(acc, secs, order, k);
      case Some(items) =>
        var acc' := Assign(acc, spec.key, items);
        AssignedAccumulator(acc, order, items);
        ReadOneSegment(acc, secs, order, items);
        ReadSegments(acc', secs, rest, k);
        ReadPresentStep(acc, secs, order, items, k);
    }
  }

  /** What `ReadSegments` demands of `order` also holds of its tail. */
  lemma OrderTail(secs: Dict<seq<string>>, order: seq<SectionSpec>)
    requires order != [] && ThirdLevelOrder(order) && DistinctKeys(order)
    requires forall i :: 0 <= i < |order| ==> CleanSection(secs, order[i].key)
    ensures ThirdLevelSpec(order[0]) && CleanSection(secs, order[0].key)
    ensures ThirdLevelOrder(order[1..]) && DistinctKeys(order[1..])
    ensures forall i :: 0 <= i < |order[1..]| ==> CleanSection(secs, order[1..][i].key)
    ensures SpecKeys(order) == [order[0].key] + SpecKeys(order[1..])
    ensures order[0].key !in SpecKeys(order[1..])
  {
    assert ThirdLevelSpec(order[0]) && CleanSection(secs, order[0].key);
    assert forall i :: 0 <= i < |order[1..]| ==> order[1..][i] == order[i + 1];
  }

  /** After filing the first key, the accumulator still lacks every later key. */
  lemma AssignedAccumulator(acc: Dict<seq<string>>, order: seq<SectionSpec>, items: seq<string>)
    requires order != [] && order[0].key !in SpecKeys(order[1..])
    requires forall k' :: k' in SpecKeys(order[1..]) ==> Lookup(acc, k').None?
    ensures forall k' :: k' in SpecKeys(order[1..]) ==> Lookup(Assign(acc, order[0].key, items), k').None?
  {
  }

  lemma ReadSkippedStep(acc: Dict<seq<string>>, secs: Dict<seq<string>>, order: seq<SectionSpec>, k: string)
    requires order != [] && Lookup(secs, order[0].key).None? && Lookup(acc, order[0].key).None?
    requires SpecKeys(order) == [order[0].key] + SpecKeys(order[1..])
    requires order[0].key !in SpecKeys(order[1..])
    requires Lookup(SectionsFrom(acc, SegmentsOf(secs, order[1..])), k)
      == if k in SpecKeys(order[1..]) then Lookup(secs, k) else Lookup(acc, k)
    ensures Lookup(SectionsFrom(acc, SegmentsOf(secs, order)), k)
      == if k in SpecKeys(order) then Lookup(secs, k) else Lookup(acc, k)
  {
    assert SegmentsOf(secs, order) == SegmentsOf(secs, order[1..]);
  }

  lemma ReadPresentStep(acc: Dict<seq<string>>, secs: Dict<seq<string>>, order: seq<SectionSpec>, items: seq<string>, k: string)
    requires order != [] && Lookup(secs, order[0].key) == Some(items)
    requires SpecKeys(order) == [order[0].key] + SpecKeys(order[1..])
    requires order[0].key !in SpecKeys(order[1..])
    requires SectionsFrom(acc, SegmentsOf(secs, order))
      == SectionsFrom(Assign(acc, order[0].key, items), SegmentsOf(secs, order[1..]))
    requires Lookup(SectionsFrom(Assign(acc, order[0].key, items), SegmentsOf(secs, order[1..])), k)
      == if k in SpecKeys(order[1..]) then Lookup(secs, k) else Lookup(Assign(acc, order[0].key, items), k)
    ensures Lookup(SectionsFrom(acc, SegmentsOf(secs, order)), k)
      == if k in SpecKeys(order) then Lookup(secs, k) else Lookup(acc, k)
  {
  }

  /** A present section's segment files its items under its key. */
  lemma ReadOneSegment(acc: Dict<seq<string>>, secs: Dict<seq<string>>, order: seq<SectionSpec>, items: seq<string>)
    requires order != [] && ThirdLevelSpec(order[0]) && CleanItems(items)
    requires Lookup(secs, order[0].key) == Some(items)
    ensures SectionsFrom(acc, SegmentsOf(secs, order))
      == SectionsFrom(Assign(acc, order[0].key, items), SegmentsOf(secs, order[1..]))
  {
    var spec := order[0];
    var name := HeadingName(spec.title);
    var seg := SectionSegment(name, items);
    var segs := SegmentsOf(secs, order);
    SegmentReadsBack(name, spec.key, items);
    assert segs[0] == seg && segs[1..] == SegmentsOf(secs, order[1..]);
    assert SectionEntry(acc, seg) == Assign(acc, spec.key, items);
  }

  /** The four `###` sections, in the order they are written. */
  const TaskSections: seq<SectionSpec> := SectionOrder[2..6]

  lemma TaskSectionsFacts()
    ensures ThirdLevelOrder(TaskSections) && DistinctKeys(TaskSections)
    ensures forall k :: k in SpecKeys(TaskSections) <==> IsTaskKey(k)
  {
    var specs := [
      SectionSpec("completed tasks", "### Completed Tasks"),
      SectionSpec("in progress", "### In Progress"),
      SectionSpec("research & learning", "### Research & Learning"),
      SectionSpec("blockers", "### Blockers")
    ];
    assert TaskSections == specs;
    TaskHeadings(specs);
    TaskKeys(specs);
  }

  lemma TaskHeadings(specs: seq<SectionSpec>)
    requires specs == [
      SectionSpec("completed tasks", "### Completed Tasks"),
      SectionSpec("in progress", "### In Progress"),
      SectionSpec("research & learning", "### Research & Learning"),
      SectionSpec("blockers", "### Blockers")
    ]
    ensures ThirdLevelOrder(specs)
  {
    CompletedHeading();
    InProgressHeading();
    ResearchHeading();
    BlockersHeading();
  }

  lemma CompletedHeading()
    ensures ThirdLevelSpec(SectionSpec("completed tasks", "### Completed Tasks"))
  {
    CompletedLower();
    CompletedPlain();
    assert "### Completed Tasks" == "### " + "Completed Tasks";
    PlainHeading("Completed Tasks", "completed tasks", "### Completed Tasks");
  }

  lemma CompletedLower()
    ensures ToLower("Completed Tasks") == "completed tasks"
  {
  }

  lemma CompletedPlain()
    ensures PlainName("Completed Tasks")
  {
  }

  lemma InProgressHeading()
    ensures ThirdLevelSpec(SectionSpec("in progress", "### In Progress"))
  {
    InProgressLower();
    InProgressPlain();
    assert "### In Progress" == "### " + "In Progress";
    PlainHeading("In Progress", "in progress", "### In Progress");
  }

  lemma InProgressLower()
    ensures ToLower("In Progress") == "in progress"
  {
  }

  lemma InProgressPlain()
    ensures PlainName("In Progress")
  {
  }

  lemma ResearchHeading()
    ensures ThirdLevelSpec(SectionSpec("research & learning", "### Research & Learning"))
  {
    ResearchLower();
    ResearchPlain();
    assert "### Research & Learning" == "### " + "Research & Learning";
    PlainHeading("Research & Learning", "research & learning", "### Research & Learning");
  }

  lemma ResearchLower()
    ensures ToLower("Research & Learning") == "research & learning"
  {
  }

  lemma ResearchPlain()
    ensures PlainName("Research & Learning")
  {
  }

  lemma BlockersHeading()
    ensures ThirdLevelSpec(SectionSpec("blockers", "### Blockers"))
  {
    BlockersLower();
    BlockersPlain();
    assert "### Blockers" == "### " + "Blockers";
    PlainHeading("Blockers", "blockers", "### Blockers");
  }

  lemma BlockersLower()
    ensures ToLower("Blockers") == "blockers"
  {
  }

  lemma BlockersPlain()
    ensures PlainName("Blockers")
  {
  }

  lemma TaskKeys(specs: seq<SectionSpec>)
    requires |specs| == 4
    requires specs[0].key == "completed tasks" && specs[1].key == "in progress"
    requires specs[2].key == "research & learning" && specs[3].key == "blockers"
    ensures DistinctKeys(specs)
    ensures forall k :: k in SpecKeys(specs) <==> IsTaskKey(k)
  {
    var keys := ["completed tasks", "in progress", "research & learning", "blockers"];
    assert specs[3..][1..] == [] && specs[2..][1..] == specs[3..];
    assert specs[1..][1..] == specs[2..] && specs[0..][1..] == specs[1..];
    assert SpecKeys(specs[3..]) == keys[3..];
    assert SpecKeys(specs[2..]) == keys[2..];
    assert SpecKeys(specs[1..]) == keys[1..];
    assert specs == specs[0..];
    assert SpecKeys(specs) == keys;
    assert DistinctKeys(specs[3..]) && DistinctKeys(specs[2..]) && DistinctKeys(specs[1..]);
  }

  /** A header of letters, spaces and `&`, starting upper-case and ending lower-case. */
  predicate PlainName(name: string) {
    && |name| >= 1 && 'A' <= name[0] <= 'Z' && 'a' <= name[|name| - 1] <= 'z'
    && forall i :: 0 <= i < |name| ==> name[i] == ' ' || name[i] == '&' || 'A' <= name[i] <= 'z'
  }

  /** A plain header reads back as its lower-cased self. */
  lemma PlainHeading(name: string, key: string, title: string)
    requires PlainName(name) && ToLower(name) == key && title == "### " + name
    ensures ThirdLevelSpec(SectionSpec(key, title))
  {
    assert title[..4] == "### " && HeadingName(title) == name;
    PlainTrim(name);
    PlainLine(name);
  }

  lemma PlainTrim(name: string)
    requires |name| >= 1 && 'A' <= name[0] <= 'Z' && 'a' <= name[|name| - 1] <= 'z'
    ensures Trim(name) == name && !IsBulletLine(name) && !IsSpace(name[0])
  {
    TrimOfTrimmed(name);
  }

  lemma PlainLine(name: string)
    requires forall i :: 0 <= i < |name| ==> name[i] == ' ' || name[i] == '&' || 'A' <= name[i] <= 'z'
    ensures SingleLine(name)
  {
  }

  /** With the `##` sections absent, only the task sections are written. */
  lemma WrittenSections(secs: Dict<seq<string>>)
    requires NoSecondLevel(secs)
    ensures RenderSections(secs, SectionOrder) == RenderSections(secs, TaskSections)
  {
    var o := SectionOrder;
    assert o[0].key == "activity summary" && o[1].key == "work analysis";
    assert o[6].key == "ai insights" && o[7].key == "tomorrow's plan";
    assert o[2..] == o[2..6] + o[6..];
    calc {
      RenderSections(secs, o);
      { RenderSectionsSkip(secs, o); }
      RenderSections(secs, o[1..]);
      { RenderSectionsSkip(secs, o[1..]); assert o[1..][1..] == o[2..]; }
      RenderSections(secs, o[2..]);
      { RenderSectionsTail(secs, o[2..6], o[6..]); }
      RenderSections(secs, o[2..6]) + RenderSections(secs, o[6..]);
      { RenderSectionsSkip(secs, o[6..]); assert o[6..][1..] == o[7..];
        RenderSectionsSkip(secs, o[7..]); assert o[7..][1..] == []; }
      RenderSections(secs, o[2..6]) + "";
    }
  }

  /** An absent section writes nothing. */
  lemma RenderSectionsSkip(secs: Dict<seq<string>>, order: seq<SectionSpec>)
    requires order != [] && Lookup(secs, order[0].key).None?
    ensures RenderSections(secs, order) == RenderSections(secs, order[1..])
  {
  }

  lemma {:induction false} RenderSectionsTail(secs: Dict<seq<string>>, a: seq<SectionSpec>, b: seq<SectionSpec>)
    ensures RenderSections(secs, a + b) == RenderSections(secs, a) + RenderSections(secs, b)
    decreases |a|
  {
    if a == [] {
      assert a + b == b;
    } else {
      assert (a + b)[0] == a[0] && (a + b)[1..] == a[1..] + b;
      RenderSectionsTail(secs, a[1..], b);
    }
  }

  /** The frontmatter block is read as a segment titled `---`. */
  lemma FrontmatterSegmentTitle(fm: Dict<FmValue>)
    ensures SegmentTitle(RenderFrontmatter(fm)) == Some("---")
  {
    var rest := FrontmatterLines(fm) + "---\n\n";
    calc {
      SegmentTitle(RenderFrontmatter(fm));
      { FrontmatterBlockStart(fm); }
      SegmentTitle("---" + "\n" + rest);
      { FirstLineOf("---", rest); }
      Some(ToLower(Trim("---")));
      { TrimOfTrimmed("---"); }
      Some(ToLower("---"));
    }
    assert ToLower("---") == "---";
  }

  lemma FrontmatterBlockStart(fm: Dict<FmValue>)
    ensures RenderFrontmatter(fm) == "---" + "\n" + (FrontmatterLines(fm) + "---\n\n")
  {
  }

  // ---------------------------------------------------------------- round trips

  /** `parseLog` reads back each task section of a written log as it was. */
  lemma RoundTripSections(doc: LogDoc, k: string)
    requires Writable(doc)
    requires IsTaskKey(k)
    ensures Lookup(ParseSections(RenderLog(doc)), k) == Lookup(doc.sections, k)
  {
    var acc := SectionEntry([], RenderFrontmatter(doc.frontmatter));
    ParsedSegments(doc);
    FrontmatterEntryOnly(doc.frontmatter);
    ReadTaskSections(acc, doc.sections, k);
  }

  /** `generateMarkdown` followed by `parseLog`: each task section reads back as its
      earlier items followed by the new entries for it (or as it was, when there were
      none). */
  lemma GenerateThenParse(existing: Option<LogDoc>, e: Entries, isoDate: string, timestamp: string)
    requires Writable(GeneratedDoc(existing, e, isoDate, timestamp))
    ensures var secs := ParseSections(RenderLog(GeneratedDoc(existing, e, isoDate, timestamp)));
      var before := if existing.Some? then existing.value.sections else [];
      && Lookup(secs, "completed tasks") == Added(before, "completed tasks", e.completed)
      && Lookup(secs, "research & learning") == Added(before, "research & learning", e.learning)
      && Lookup(secs, "in progress") == Added(before, "in progress", e.inProgress)
      && Lookup(secs, "blockers") == Added(before, "blockers", e.blockers)
  {
    var doc := GeneratedDoc(existing, e, isoDate, timestamp);
    var before := if existing.Some? then existing.value.sections else [];
    assert doc.sections == ApplyEntries(before, e);
    ApplyEntriesSections(before, e);
    RoundTripSections(doc, "completed tasks");
    RoundTripSections(doc, "research & learning");
    RoundTripSections(doc, "in progress");
    RoundTripSections(doc, "blockers");
  }

  /** Reading the task segments files every task key, whatever was filed before. */
  lemma ReadTaskSections(acc: Dict<seq<string>>, secs: Dict<seq<string>>, k: string)
    requires CleanTaskSections(secs)
    requires forall k' :: IsTaskKey(k') ==> Lookup(acc, k').None?
    requires IsTaskKey(k)
    ensures Lookup(SectionsFrom(acc, SegmentsOf(secs, TaskSections)), k) == Lookup(secs, k)
  {
    TaskSectionsFacts();
    TaskSectionsClean(secs);
    ReadSegments(acc, secs, TaskSections, k);
  }

  /** Each task section of `secs` holds clean items. */
  lemma TaskSectionsClean(secs: Dict<seq<string>>)
    requires CleanTaskSections(secs)
    ensures forall i :: 0 <= i < |TaskSections| ==> CleanSection(secs, TaskSections[i].key)
  {
    forall i | 0 <= i < |TaskSections|
      ensures CleanSection(secs, TaskSections[i].key)
    {
      TaskSectionKey(i);
    }
  }

  /** Each entry of `TaskSections` carries a task key. */
  lemma TaskSectionKey(i: nat)
    requires i < |TaskSections|
    ensures IsTaskKey(TaskSections[i].key)
  {
    assert TaskSections == [
      SectionSpec("completed tasks", "### Completed Tasks"),
      SectionSpec("in progress", "### In Progress"),
      SectionSpec("research & learning", "### Research & Learning"),
      SectionSpec("blockers", "### Blockers")
    ];
  }

  /** The written log splits into the frontmatter block and one segment per present task
      section, which `parseLog` reads in order. */
  lemma ParsedSegments(doc: LogDoc)
    requires Writable(doc)
    ensures ParseSections(RenderLog(doc))
      == SectionsFrom(SectionEntry([], RenderFrontmatter(doc.frontmatter)), SegmentsOf(doc.sections, TaskSections))
  {
    var front := RenderFrontmatter(doc.frontmatter);
    var segs := SegmentsOf(doc.sections, TaskSections);
    WrittenLog(doc);
    TaskSegmentsSplittable(doc.sections);
    FrontmatterBlockEnds(doc.frontmatter);
    SplitSectionsHeaded(front, segs);
    SectionsFromCons(front, segs);
  }

  /** The written log is its frontmatter block followed by the headed task segments. */
  lemma WrittenLog(doc: LogDoc)
    requires NoSecondLevel(doc.sections)
    ensures RenderLog(doc)
      == RenderFrontmatter(doc.frontmatter) + Headed(SegmentsOf(doc.sections, TaskSections))
  {
    TaskSectionsFacts();
    WrittenSections(doc.sections);
    RenderThirdLevel(doc.sections, TaskSections);
  }

  lemma TaskSegmentsSplittable(secs: Dict<seq<string>>)
    requires CleanTaskSections(secs)
    ensures forall i :: 0 <= i < |SegmentsOf(secs, TaskSections)| ==> SplittableSegment(SegmentsOf(secs, TaskSections)[i])
  {
    TaskSectionsFacts();
    TaskSectionsClean(secs);
    SegmentsSplittable(secs, TaskSections);
  }

  /** The frontmatter block has no header and ends its last line. */
  lemma FrontmatterBlockEnds(fm: Dict<FmValue>)
    requires FrontmatterSafe(fm)
    ensures var front := RenderFrontmatter(fm); HashSafe(front) && IsLineTerminator(front[|front| - 1])
  {
    HashSafeFrontmatter(fm);
  }

  lemma SectionsFromCons(front: string, segs: seq<string>)
    ensures SectionsFrom([], [front] + segs) == SectionsFrom(SectionEntry([], front), segs)
  {
    assert ([front] + segs)[0] == front && ([front] + segs)[1..] == segs;
  }

  /** The frontmatter block files only the key `---`. */
  lemma FrontmatterEntryOnly(fm: Dict<FmValue>)
    ensures forall k' :: IsTaskKey(k') ==> Lookup(SectionEntry([], RenderFrontmatter(fm)), k').None?
  {
    FrontmatterSegmentTitle(fm);
  }
}
