/** What is read back from the frontmatter `generateMarkdown` writes: `parseLog` gives back
    the entries of a frontmatter of plain text values, and the popup's
    `parseDailyLog` finds the `commits_today` figure wherever its line stands. */
module FrontmatterRoundTrip {
  import opened Text
  import opened Markdown
  import opened ServerLog
  import opened LogRoundTrip
  import Popup

  // ---------------------------------------------------------------- lines

  /** The line `key: value` written for an entry, without its line break. */
  function LineText(key: string, v: FmValue): string {
    key + ": " + ValueText(v)
  }

  function LineTexts(fm: Dict<FmValue>): (ls: seq<string>)
    ensures |ls| == |fm|
    ensures forall i :: 0 <= i < |fm| ==> ls[i] == LineText(fm[i].0, fm[i].1)
  {
    if fm == [] then [] else [LineText(fm[0].0, fm[0].1)] + LineTexts(fm[1..])
  }

  /** An entry whose line stays one line and cannot be taken for the closing `---`:
      a non-empty key not starting with `-`, key and value free of line breaks. */
  predicate LineSafe(key: string, v: FmValue) {
    key != [] && key[0] != '-' && SingleLine(key) && SingleLine(ValueText(v))
  }

  predicate LinesSafe(fm: Dict<FmValue>) {
    forall i :: 0 <= i < |fm| ==> LineSafe(fm[i].0, fm[i].1)
  }

  /** An entry `parseLog` reads back as it was: its line is safe, the key holds no `:`
      and the value is text; key and value have no white space at either end. */
  predicate PlainEntry(key: string, v: FmValue) {
    LineSafe(key, v) && ':' !in key && CleanItem(key) && v.Str? && CleanItem(v.text)
  }

  predicate PlainFrontmatter(fm: Dict<FmValue>) {
    forall i :: 0 <= i < |fm| ==> PlainEntry(fm[i].0, fm[i].1)
  }

  /** Every line break in `b` is followed by a character other than `-`. */
  predicate DashSafe(b: string) {
    forall m :: 0 <= m < |b| && b[m] == '\n' ==> m + 1 < |b| && b[m + 1] != '-'
  }

  lemma LineOfSafeEntry(key: string, v: FmValue)
    requires LineSafe(key, v)
    ensures var l := LineText(key, v); l != [] && l[0] == key[0] && '\n' !in l
  {
    SingleLineConcat(key, ": ");
    SingleLineConcat(key + ": ", ValueText(v));
    SingleLineHasNoNewline(LineText(key, v));
  }

  /** The written lines are the pieces of the frontmatter block, joined by line breaks. */
  lemma {:induction false} FrontmatterLinesJoin(fm: Dict<FmValue>)
    requires fm != []
    ensures FrontmatterLines(fm) == Join(LineTexts(fm), "\n") + "\n"
    decreases |fm|
  {
    if |fm| > 1 {
      FrontmatterLinesJoin(fm[1..]);
      assert LineTexts(fm)[1..] == LineTexts(fm[1..]);
    }
  }

  /** A line, a line break, then a block that starts with something other than `-`. */
  lemma DashSafeCons(x: string, rest: string)
    requires '\n' !in x && rest != [] && rest[0] != '-' && DashSafe(rest)
    ensures DashSafe(x + "\n" + rest)
  {
    var b := x + "\n" + rest;
    assert forall m :: 0 <= m < |x| ==> b[m] == x[m];
    forall m | 0 <= m < |b| && b[m] == '\n'
      ensures m + 1 < |b| && b[m + 1] != '-'
    {
      if m > |x| {
        assert b[m] == rest[m - |x| - 1];
        assert b[m + 1] == rest[m - |x|];
      } else {
        assert b[m + 1] == rest[0];
      }
    }
  }

  /** Safe lines joined by line breaks give a block in which no line break is followed
      by `-`. */
  lemma {:induction false} DashSafeJoin(fm: Dict<FmValue>)
    requires fm != [] && LinesSafe(fm)
    ensures var b := Join(LineTexts(fm), "\n"); DashSafe(b) && b != [] && b[0] == fm[0].0[0]
    decreases |fm|
  {
    var x := LineText(fm[0].0, fm[0].1);
    LineOfSafeEntry(fm[0].0, fm[0].1);
    if |fm| > 1 {
      DashSafeJoin(fm[1..]);
      assert LineTexts(fm)[1..] == LineTexts(fm[1..]);
      assert fm[1..][0] == fm[1];
      DashSafeCons(x, Join(LineTexts(fm[1..]), "\n"));
    } else {
      assert Join(LineTexts(fm), "\n") == x;
    }
  }

  // ---------------------------------------------------------------- the frontmatter block

  /** Where the parts of `open + lines + close + tail` sit. */
  lemma BlockLayout(open: string, lines: string, close: string, tail: string)
    ensures var s := open + lines + close + tail; var c := |open| + |lines|;
      && |s| == c + |close| + |tail| && s[..|open|] == open
      && (forall m :: 0 <= m < |lines| ==> s[|open| + m] == lines[m])
      && (forall m :: 0 <= m < |close| ==> s[c + m] == close[m])
  {
  }

  /** `indexOf` finds the first occurrence. */
  lemma FirstOccurrence(s: string, pat: string, from: nat, j: nat)
    requires from <= j && OccursAt(s, pat, j)
    requires forall k :: from <= k < j ==> !OccursAt(s, pat, k)
    ensures IndexOf(s, pat, from) == Some(j)
  {
  }

  /** Inside a dash-safe block no closing `\n---` starts. */
  lemma NoCloseInside(s: string, b: string)
    requires DashSafe(b) && 4 + |b| <= |s|
    requires forall m :: 0 <= m < |b| ==> s[4 + m] == b[m]
    ensures forall k :: 5 <= k < 4 + |b| ==> !OccursAt(s, "\n---", k)
  {
    forall k | 5 <= k < 4 + |b|
      ensures !OccursAt(s, "\n---", k)
    {
      assert s[k] == b[k - 4];
      if b[k - 4] == '\n' {
        assert s[k + 1] == b[k - 3];
        assert k + 4 <= |s| ==> s[k..k + 4][1] == s[k + 1];
      } else {
        assert k + 4 <= |s| ==> s[k..k + 4][0] == s[k];
      }
    }
  }

  /** Between an opening `---\n` at the start and a closing `\n---` right after a
      dash-safe block, the lazy match captures the block. */
  lemma BodyBetweenMarkers(s: string, b: string)
    requires b != [] && DashSafe(b) && 8 + |b| <= |s|
    requires s[..4] == "---\n" && s[4..4 + |b|] == b && s[4 + |b|..8 + |b|] == "\n---"
    ensures FrontmatterBody(s) == Some(b)
  {
    var j := 4 + |b|;
    assert s[0..4] == s[..4];
    assert forall m :: 0 <= m < |b| ==> s[4 + m] == s[4..j][m];
    NoCloseInside(s, b);
    FirstOccurrence(s, "\n---", 5, j);
  }

  /** Where the block and the markers sit in the written frontmatter. */
  lemma RenderedMarkers(lines: string, b: string, tail: string)
    requires lines == b + "\n"
    ensures var s := "---\n" + lines + "---\n\n" + tail;
      && 8 + |b| <= |s| && s[..4] == "---\n" && s[4..4 + |b|] == b
      && s[4 + |b|..8 + |b|] == "\n---"
  {
    var s := "---\n" + lines + "---\n\n" + tail;
    BlockLayout("---\n", lines, "---\n\n", tail);
    var j := 4 + |b|;
    assert s[j] == '\n' && s[j + 1] == '-' && s[j + 2] == '-' && s[j + 3] == '-';
    assert s[4..j] == b;
  }

  /** The lazy frontmatter match over the written log captures exactly the block of
      entry lines. */
  lemma FrontmatterBodyOfBlock(lines: string, b: string, tail: string)
    requires b != [] && DashSafe(b) && lines == b + "\n"
    ensures FrontmatterBody("---\n" + lines + "---\n\n" + tail) == Some(b)
  {
    RenderedMarkers(lines, b, tail);
    BodyBetweenMarkers("---\n" + lines + "---\n\n" + tail, b);
  }

  /** `FrontmatterBody(RenderLog(doc))` is the block of entry lines of a frontmatter
      whose lines are safe. */
  lemma FrontmatterBodyOfLog(doc: LogDoc)
    requires doc.frontmatter != [] && LinesSafe(doc.frontmatter)
    ensures FrontmatterBody(RenderLog(doc)) == Some(Join(LineTexts(doc.frontmatter), "\n"))
  {
    var b := Join(LineTexts(doc.frontmatter), "\n");
    FrontmatterLinesJoin(doc.frontmatter);
    DashSafeJoin(doc.frontmatter);
    FrontmatterBodyOfBlock(FrontmatterLines(doc.frontmatter), b, RenderSections(doc.sections, SectionOrder));
  }

  /** Splitting the block at line breaks gives back the entry lines. */
  lemma SplitBlock(fm: Dict<FmValue>)
    requires fm != [] && LinesSafe(fm)
    ensures Split(Join(LineTexts(fm), "\n"), '\n') == LineTexts(fm)
  {
    forall i | 0 <= i < |fm|
      ensures '\n' !in LineTexts(fm)[i]
    {
      LineOfSafeEntry(fm[i].0, fm[i].1);
    }
    SplitUnique(LineTexts(fm), '\n', Join(LineTexts(fm), "\n"));
  }

  // ---------------------------------------------------------------- parseLog

  lemma {:induction false} KeysAppend<V>(d: Dict<V>, e: (string, V))
    ensures Keys(d + [e]) == Keys(d) + [e.0]
    decreases |d|
  {
    if d != [] {
      assert (d + [e])[1..] == d[1..] + [e];
      KeysAppend(d[1..], e);
    }
  }

  /** Assigning a new key appends it. */
  lemma {:induction false} AssignNew<V>(d: Dict<V>, k: string, v: V)
    requires k !in Keys(d)
    ensures Assign(d, k, v) == d + [(k, v)]
    decreases |d|
  {
    if d != [] {
      assert Keys(d) == [d[0].0] + Keys(d[1..]);
      AssignNew(d[1..], k, v);
    }
  }

  /** A single leading space is what `trim` takes off the value. */
  lemma TrimAfterSpace(t: string)
    requires CleanItem(t)
    ensures Trim(" " + t) == t
  {
    TrimStartSkip(' ', t);
    TrimStartKeeps(t);
    TrimOfTrimmed(t);
  }

  /** `parseLog` reads the line of a plain entry with a new key as that entry, filed
      last. */
  lemma EntryOfLine(acc: Dict<FmValue>, key: string, v: FmValue)
    requires PlainEntry(key, v) && key !in Keys(acc)
    ensures FrontmatterEntry(acc, LineText(key, v)) == acc + [(key, v)]
  {
    var line := LineText(key, v);
    var t := v.text;
    assert line == key + [':'] + (" " + t);
    FirstIndexAfterFree(key, ':', " " + t);
    FrontmatterLineRule(acc, line);
    assert line[..|key|] == key;
    assert line[|key| + 1..] == " " + t;
    TrimOfTrimmed(key);
    TrimAfterSpace(t);
    AssignNew(acc, key, Str(t));
  }

  /** What is left after the first entry still meets the conditions of `ReadLines`. */
  lemma ReadLinesRest(acc: Dict<FmValue>, fm: Dict<FmValue>)
    requires fm != [] && PlainFrontmatter(fm) && KeysUnique(fm)
    requires forall k :: k in Keys(fm) ==> k !in Keys(acc)
    ensures PlainFrontmatter(fm[1..]) && KeysUnique(fm[1..])
    ensures forall k :: k in Keys(fm[1..]) ==> k !in Keys(acc + [fm[0]])
  {
    assert Keys(fm) == [fm[0].0] + Keys(fm[1..]);
    KeysAppend(acc, fm[0]);
    forall i | 0 <= i < |fm[1..]|
      ensures PlainEntry(fm[1..][i].0, fm[1..][i].1)
    {
      assert fm[1..][i] == fm[i + 1];
    }
  }

  /** The first line of plain entries, read into `acc`, files the first entry. */
  lemma ReadFirstLine(acc: Dict<FmValue>, fm: Dict<FmValue>)
    requires fm != [] && PlainEntry(fm[0].0, fm[0].1) && fm[0].0 !in Keys(acc)
    ensures FrontmatterFrom(acc, LineTexts(fm)) == FrontmatterFrom(acc + [fm[0]], LineTexts(fm[1..]))
  {
    var ls := LineTexts(fm);
    assert ls == [LineText(fm[0].0, fm[0].1)] + LineTexts(fm[1..]);
    assert ls[1..] == LineTexts(fm[1..]);
    EntryOfLine(acc, fm[0].0, fm[0].1);
  }

  lemma AppendFirst<T>(a: seq<T>, b: seq<T>)
    requires b != []
    ensures a + [b[0]] + b[1..] == a + b
  {
    assert b == [b[0]] + b[1..];
  }

  /** Reading the lines of plain entries with fresh, distinct keys appends the entries. */
  lemma {:induction false} ReadLines(acc: Dict<FmValue>, fm: Dict<FmValue>)
    requires PlainFrontmatter(fm) && KeysUnique(fm)
    requires forall k :: k in Keys(fm) ==> k !in Keys(acc)
    ensures FrontmatterFrom(acc, LineTexts(fm)) == acc + fm
    decreases |fm|
  {
    if fm != [] {
      assert Keys(fm) == [fm[0].0] + Keys(fm[1..]);
      ReadFirstLine(acc, fm);
      ReadLinesRest(acc, fm);
      ReadLines(acc + [fm[0]], fm[1..]);
      AppendFirst(acc, fm);
    }
  }

  /** `parseLog(generateMarkdown(…))` gives back the frontmatter that was written, when
      its entries are plain text under distinct keys. */
  lemma FrontmatterRoundTrip(doc: LogDoc)
    requires doc.frontmatter != [] && KeysUnique(doc.frontmatter)
    requires PlainFrontmatter(doc.frontmatter)
    ensures ParseFrontmatter(RenderLog(doc)) == doc.frontmatter
  {
    var fm := doc.frontmatter;
    assert LinesSafe(fm);
    FrontmatterBodyOfLog(doc);
    SplitBlock(fm);
    ReadLines([], fm);
  }

  // ---------------------------------------------------------------- parseDailyLog

  /** Text that does not hold `pat` on either side of a character `pat` does not hold
      does not hold `pat`. */
  lemma NoneAcross(a: string, c: char, b: string, pat: string)
    requires c !in pat && !Includes(a, pat) && !Includes(b, pat)
    ensures !Includes(a + [c] + b, pat)
  {
    var s := a + [c] + b;
    assert !OccursAt(a, pat, 0);
    forall k: int | 0 <= k
      ensures !OccursAt(s, pat, k)
    {
      if k + |pat| <= |a| {
        assert s[k..k + |pat|] == a[k..k + |pat|];
        assert !OccursAt(a, pat, k);
      } else if k > |a| {
        assert k + |pat| <= |s| ==> s[k..k + |pat|] == b[k - |a| - 1..k - |a| - 1 + |pat|];
        assert !OccursAt(b, pat, k - |a| - 1);
      } else {
        assert k + |pat| <= |s| ==> s[k..k + |pat|][|a| - k] == c;
      }
    }
  }

  /** Lines that do not hold `pat`, each closed by a line break, do not hold it. */
  lemma {:induction false} NoneInLines(xs: seq<string>, pat: string)
    requires xs != [] && '\n' !in pat
    requires forall j :: 0 <= j < |xs| ==> !Includes(xs[j], pat)
    ensures !Includes(Join(xs, "\n") + "\n", pat)
    decreases |xs|
  {
    assert !OccursAt(xs[0], pat, 0);
    if |xs| == 1 {
      NoneAcross(xs[0], '\n', [], pat);
      assert xs[0] + ['\n'] + [] == Join(xs, "\n") + "\n";
    } else {
      NoneInLines(xs[1..], pat);
      NoneAcross(xs[0], '\n', Join(xs[1..], "\n") + "\n", pat);
      assert xs[0] + ['\n'] + (Join(xs[1..], "\n") + "\n") == Join(xs, "\n") + "\n";
    }
  }

  /** Part `i` inside the joined text: what comes before it and after it. */
  lemma JoinAround(parts: seq<string>, i: nat, sep: string)
    requires i < |parts|
    ensures Join(parts, sep)
      == (if i == 0 then "" else Join(parts[..i], sep) + sep) + parts[i]
         + (if i == |parts| - 1 then "" else sep + Join(parts[i + 1..], sep))
  {
    var xs, ys := parts[..i], parts[i + 1..];
    assert parts[i..] == [parts[i]] + ys;
    if i > 0 {
      JoinAppend(xs, parts[i..], sep);
      assert xs + parts[i..] == parts;
    } else {
      assert parts[i..] == parts;
    }
    if ys != [] {
      JoinAppend([parts[i]], ys, sep);
    }
  }

  /** The `commits_today` line inside the block of entry lines is found, when the
      lines before it do not mention `commits_today:`. */
  lemma CommitsInBlock(fm: Dict<FmValue>, i: nat, n: nat)
    requires LinesSafe(fm) && i < |fm|
    requires fm[i].0 == "commits_today"
    requires ValueText(fm[i].1) == NatToString(n)
    requires forall j :: 0 <= j < i ==> !Includes(LineText(fm[j].0, fm[j].1), "commits_today:")
    ensures Popup.CommitsOf(Some(Join(LineTexts(fm), "\n"))) == n
  {
    var ls := LineTexts(fm);
    var pre := if i == 0 then "" else Join(ls[..i], "\n") + "\n";
    var post := if i == |fm| - 1 then "" else "\n" + Join(ls[i + 1..], "\n");
    JoinAround(ls, i, "\n");
    LinesBeforeFree(fm, i);
    CommitsLineText(fm[i].1, n);
    assert post == [] || post[0] == '\n';
    CommitsLineBetween(pre, ls[i], post, n);
  }

  lemma CommitsLineText(v: FmValue, n: nat)
    requires ValueText(v) == NatToString(n)
    ensures LineText("commits_today", v) == "commits_today: " + NatToString(n)
  {
  }

  lemma TagOneLine()
    ensures '\n' !in "commits_today:"
  {
    var tag := "commits_today:";
    assert forall m :: 0 <= m < |tag| ==> tag[m] != '\n';
  }

  /** The lines before entry `i`, none of which mentions `commits_today:`, do not
      mention it together either. */
  lemma LinesBeforeFree(fm: Dict<FmValue>, i: nat)
    requires i <= |fm|
    requires forall j :: 0 <= j < i ==> !Includes(LineText(fm[j].0, fm[j].1), "commits_today:")
    ensures var ls := LineTexts(fm);
      !Includes(if i == 0 then "" else Join(ls[..i], "\n") + "\n", "commits_today:")
  {
    var ls := LineTexts(fm);
    if i > 0 {
      assert forall j :: 0 <= j < i ==> ls[..i][j] == ls[j];
      TagOneLine();
      NoneInLines(ls[..i], "commits_today:");
    } else {
      assert !OccursAt([], "commits_today:", 0);
    }
  }

  lemma Regroup(a: string, b: string, c: string, d: string)
    ensures a + (b + c) + d == a + b + c + d
  {
  }

  /** The bridge from the line as written to the shape `CommitsReadBack` reads. */
  lemma CommitsLineBetween(pre: string, line: string, post: string, n: nat)
    requires line == "commits_today: " + NatToString(n)
    requires !Includes(pre, "commits_today:") && (post == [] || !IsDigit(post[0]))
    ensures Popup.CommitsOf(Some(pre + line + post)) == n
  {
    Regroup(pre, "commits_today: ", NatToString(n), post);
    Popup.CommitsReadBack(pre, n, post);
  }

  /** The popup reads the `commits_today` figure from the log `generateMarkdown` writes, when
      the lines before it do not mention `commits_today:`. With the server's own
      defaults it stands fifth, after date, updated and the two hours figures. */
  lemma CommitsReadFromLog(doc: LogDoc, i: nat, n: nat)
    requires LinesSafe(doc.frontmatter) && i < |doc.frontmatter|
    requires doc.frontmatter[i].0 == "commits_today"
    requires ValueText(doc.frontmatter[i].1) == NatToString(n)
    requires forall j :: 0 <= j < i ==>
               !Includes(LineText(doc.frontmatter[j].0, doc.frontmatter[j].1), "commits_today:")
    ensures Popup.ParsedDaily(RenderLog(doc)).commitsToday == n
  {
    FrontmatterBodyOfLog(doc);
    CommitsInBlock(doc.frontmatter, i, n);
  }
}
