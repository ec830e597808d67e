/** The pieces of Markdown reading that the server's `parseLog` and the popup's
    `parseDailyLog` share: the frontmatter regular expression `/---\n([\s\S]+?)\n---/`,
    the section split `split(/^###\s+/m)`, the first-line title match `/^([^\n]+)/`
    and the bullet rule (a line whose trim starts with `-`, read without its leading
    dash and the white space after it, then trimmed). */
module Markdown {
  import opened Text

  // ---------------------------------------------------------------- frontmatter block

  /** The frontmatter expression matches with its opening `---\n` at `i` and its
      closing `\n---` at `j`; the lazy group `[\s\S]+?` needs at least one character. */
  predicate FrontmatterMatch(s: string, i: int, j: int) {
    OccursAt(s, "---\n", i) && i + 5 <= j && OccursAt(s, "\n---", j)
  }

  /** The match a backtracking engine reports: the leftmost opening marker that has a
      closing marker after it, and for it the nearest closing marker. */
  function FrontmatterSpan(s: string): (r: Option<(nat, nat)>)
    ensures r.Some? ==> FrontmatterMatch(s, r.value.0, r.value.1)
    ensures r.Some? ==> forall i, j :: FrontmatterMatch(s, i, j) ==>
      r.value.0 < i || (r.value.0 == i && r.value.1 <= j)
    ensures r.None? ==> forall i, j :: !FrontmatterMatch(s, i, j)
  {
    match IndexOf(s, "---\n", 0)
    case None => None
    case Some(i) =>
      match IndexOf(s, "\n---", i + 5)
      case None => None
      case Some(j) => Some((i, j))
  }

  /** The captured group: the text strictly between the two markers. */
  function FrontmatterBody(s: string): (r: Option<string>)
    ensures r.Some? <==> exists i, j :: FrontmatterMatch(s, i, j)
    ensures r.Some? ==> |r.value| >= 1
  {
    match FrontmatterSpan(s)
    case None => None
    case Some((i, j)) => Some(s[i + 4..j])
  }

  // ---------------------------------------------------------------- section split

  /** The end of the white-space run that starts at `k` (`\s+` is greedy). */
  function SpaceRunEnd(s: string, k: nat): (e: nat)
    requires k <= |s|
    ensures k <= e <= |s|
    ensures forall m :: k <= m < e ==> IsSpace(s[m])
    ensures e == |s| || !IsSpace(s[e])
    decreases |s| - k
  {
    if k < |s| && IsSpace(s[k]) then SpaceRunEnd(s, k + 1) else k
  }

  /** `/^###\s+/m` tried at position `q`: `###` at the start of a line, then white space;
      the result is where the (greedy) match ends. */
  function HeaderEnd(s: string, q: nat): (r: Option<nat>)
    ensures r.Some? <==> (q == 0 || (q <= |s| && IsLineTerminator(s[q - 1])))
                         && OccursAt(s, "###", q) && q + 3 < |s| && IsSpace(s[q + 3])
    ensures r.Some? ==> q + 4 <= r.value <= |s| && (r.value == |s| || !IsSpace(s[r.value]))
  {
    if (q == 0 || (q <= |s| && IsLineTerminator(s[q - 1]))) && OccursAt(s, "###", q)
       && q + 3 < |s| && IsSpace(s[q + 3])
    then Some(SpaceRunEnd(s, q + 4))
    else None
  }

  /** `s.split(/^###\s+/m)` continued from a piece that began at `p`, scanning at `q`. */
  function SplitFrom(s: string, p: nat, q: nat): (pieces: seq<string>)
    requires p <= q <= |s|
    ensures |pieces| >= 1
    ensures pieces[0] <= s[p..]
    ensures var last := pieces[|pieces| - 1]; |last| <= |s| - p && s[|s| - |last|..] == last
    decreases |s| - q
  {
    if q >= |s| then [s[p..]]
    else
      match HeaderEnd(s, q)
      case Some(e) => [s[p..q]] + SplitFrom(s, e, e)
      case None => SplitFrom(s, p, q + 1)
  }

  /** `s.split(/^###\s+/m)`: the segments between section headers. The text before the
      first header starts `s` and the text after the last header ends it. */
  function SplitSections(s: string): (segments: seq<string>)
    ensures |segments| >= 1
    ensures segments[0] <= s
    ensures var last := segments[|segments| - 1]; |last| <= |s| && s[|s| - |last|..] == last
  {
    SplitFrom(s, 0, 0)
  }

  // ---------------------------------------------------------------- titles and bullets

  /** `section.match(/^([^\n]+)/)`: the segment's first line, when it is not empty. */
  function FirstLine(s: string): (r: Option<string>)
    ensures r.Some? <==> s != [] && s[0] != '\n'
    ensures r.Some? ==> r.value != [] && '\n' !in r.value && r.value <= s
    ensures r.Some? ==> |r.value| == |s| || s[|r.value|] == '\n'
  {
    var parts := Split(s, '\n');
    var line := parts[0];
    SplitJoin(s, '\n');
    assert |parts| > 1 ==> s == line + "\n" + Join(parts[1..], "\n");
    if line == [] then None else Some(line)
  }

  /** The dictionary key `parseLog` files a segment under: its first line, trimmed and
      lower-cased; a segment whose first line is empty has none. */
  function SegmentTitle(segment: string): (r: Option<string>)
    ensures r.Some? <==> segment != [] && segment[0] != '\n'
  {
    match FirstLine(segment)
    case None => None
    case Some(line) => Some(ToLower(Trim(line)))
  }

  /** `l.trim() && l.trim().startsWith('-')`. */
  predicate IsBulletLine(l: string) {
    var t := Trim(l);
    t != [] && t[0] == '-'
  }

  // l.replace(/^-\s*/, '').trim(): a dash is removed only when it is the very first
  // character of the untrimmed line.
  function BulletText(l: string): string {
    Trim(if l != [] && l[0] == '-' then TrimStart(l[1..]) else l)
  }

  /** The bullet lines of `lines`, in order, with their dashes stripped. */
  function BulletItems(lines: seq<string>): (items: seq<string>)
    ensures |items| <= |lines|
  {
    if lines == [] then [] else LineItem(lines[0]) + BulletItems(lines[1..])
  }

  /** What one line contributes: its text when it is a bullet, nothing otherwise. */
  function LineItem(l: string): (r: seq<string>)
    ensures |r| <= 1
  {
    if IsBulletLine(l) then [BulletText(l)] else []
  }

  lemma {:induction false} BulletItemsAppend(xs: seq<string>, ys: seq<string>)
    ensures BulletItems(xs + ys) == BulletItems(xs) + BulletItems(ys)
    decreases |xs|
  {
    if xs == [] {
      assert xs + ys == ys;
    } else {
      assert (xs + ys)[0] == xs[0];
      assert (xs + ys)[1..] == xs[1..] + ys;
      BulletItemsAppend(xs[1..], ys);
    }
  }

  /** A segment's items: its lines (split on `\n`) that are bullets. */
  function SegmentItems(segment: string): seq<string> {
    BulletItems(Split(segment, '\n'))
  }

  /** An indented bullet keeps its dash: only the trimmed line starts with `-`. */
  lemma IndentedBulletKeepsDash()
    ensures IsBulletLine("  - x") && BulletText("  - x") == "- x"
  {
    assert TrimStart("  - x") == "- x" by {
      assert TrimStart("- x") == "- x";
      assert "  - x"[1..] == " - x" && " - x"[1..] == "- x";
    }
    assert TrimEnd("- x") == "- x";
  }

  /** A frontmatter marker line is itself a bullet, read as `--`. */
  lemma MarkerLineIsBullet()
    ensures IsBulletLine("---") && BulletText("---") == "--"
  {
    assert TrimStart("---") == "---";
    assert TrimEnd("---") == "---";
    assert "---"[1..] == "--";
    assert TrimStart("--") == "--";
    assert TrimEnd("--") == "--";
  }

  // ---------------------------------------------------------------- where headers can be

  /** No `#` in `t` can begin a line, the start of `t` counting as a line start. */
  predicate HashSafe(t: string) {
    forall k :: 0 <= k < |t| && t[k] == '#' ==> 0 < k && !IsLineTerminator(t[k - 1])
  }

  lemma HashSafeConcat(a: string, b: string)
    requires HashSafe(a) && HashSafe(b)
    ensures HashSafe(a + b)
  {
    forall k | 0 <= k < |a + b| && (a + b)[k] == '#'
      ensures 0 < k && !IsLineTerminator((a + b)[k - 1])
    {
      if k >= |a| {
        assert b[k - |a|] == '#';
      }
    }
  }

  lemma HashSafeLine(t: string)
    requires SingleLine(t) && (t == [] || t[0] != '#')
    ensures HashSafe(t)
  {
  }

  /** No header can start at a position of `s[lo..hi]`. */
  predicate NoHeaderIn(s: string, lo: int, hi: int) {
    forall k :: lo <= k < hi && 0 <= k < |s| && s[k] == '#' ==> 0 < k && !IsLineTerminator(s[k - 1])
  }

  lemma HashSafeInside(s: string, lo: nat, hi: nat)
    requires lo <= hi <= |s| && HashSafe(s[lo..hi])
    ensures NoHeaderIn(s, lo, hi)
  {
    forall k | lo <= k < hi && s[k] == '#'
      ensures 0 < k && !IsLineTerminator(s[k - 1])
    {
      assert s[lo..hi][k - lo] == '#';
    }
  }

  lemma {:induction false} SkipNoHeader(s: string, p: nat, q: nat, q0: nat)
    requires p <= q <= q0 <= |s|
    requires NoHeaderIn(s, q, q0)
    ensures SplitFrom(s, p, q) == SplitFrom(s, p, q0)
    decreases q0 - q
  {
    if q < q0 {
      assert HeaderEnd(s, q).None? by {
        if OccursAt(s, "###", q) {
          assert s[q..q + 3] == "###" && "###"[0] == '#';
          assert s[q] == s[q..q + 3][0];
        }
      }
      SkipNoHeader(s, p, q + 1, q0);
    }
  }

  lemma SplitAtHeader(s: string, p: nat, q: nat)
    requires p <= q && q + 4 < |s|
    requires q == 0 || IsLineTerminator(s[q - 1])
    requires OccursAt(s, "### ", q) && !IsSpace(s[q + 4])
    ensures SplitFrom(s, p, q) == [s[p..q]] + SplitFrom(s, q + 4, q + 4)
  {
    assert s[q..q + 3] == s[q..q + 4][..3];
    assert s[q + 3] == s[q..q + 4][3];
  }

  /** `### ` followed by each segment in turn. */
  function Headed(segments: seq<string>): string {
    if segments == [] then "" else "### " + segments[0] + Headed(segments[1..])
  }

  /** A segment that a `### ` header can introduce and that the split gives back whole:
      it starts with a visible character, no line of it starts with `#`, and it ends
      with a line break. */
  predicate SplittableSegment(g: string) {
    g != [] && !IsSpace(g[0]) && HashSafe(g) && IsLineTerminator(g[|g| - 1])
  }

  /** Splitting text made of a header-free prefix and headed segments gives back the
      prefix and the segments. */
  lemma {:induction false} SplitHeaded(x: string, segments: seq<string>, p: nat)
    requires p <= |x| && HashSafe(x[p..])
    requires segments != [] ==> |x| == 0 || IsLineTerminator(x[|x| - 1])
    requires forall i :: 0 <= i < |segments| ==> SplittableSegment(segments[i])
    ensures SplitFrom(x + Headed(segments), p, p) == [x[p..]] + segments
    decreases |segments|
  {
    if segments == [] {
      SplitUnheaded(x, p);
    } else {
      var g, rest := segments[0], segments[1..];
      assert SplittableSegment(g);
      SplittableTail(segments);
      NextPrefix(x, g);
      SplitHeaded(x + "### " + g, rest, |x| + 4);
      SplitHeadedCons(x, segments, p);
    }
  }

  lemma SplitUnheaded(x: string, p: nat)
    requires p <= |x| && HashSafe(x[p..])
    ensures SplitFrom(x + Headed([]), p, p) == [x[p..]]
  {
    assert x + Headed([]) == x;
    SkipPrefix(x, [], p);
    assert x + [] == x;
  }

  lemma SplittableTail(segments: seq<string>)
    requires segments != []
    requires forall i :: 0 <= i < |segments| ==> SplittableSegment(segments[i])
    ensures forall i :: 0 <= i < |segments| - 1 ==> SplittableSegment(segments[1..][i])
  {
    assert forall i :: 0 <= i < |segments| - 1 ==> segments[1..][i] == segments[i + 1];
  }

  /** One headed segment more: the split of the rest, prefixed by the first segment,
      gives the split of the whole. */
  lemma SplitHeadedCons(x: string, segments: seq<string>, p: nat)
    requires p <= |x| && HashSafe(x[p..]) && segments != []
    requires |x| == 0 || IsLineTerminator(x[|x| - 1])
    requires segments[0] != [] && !IsSpace(segments[0][0])
    requires SplitFrom(x + "### " + segments[0] + Headed(segments[1..]), |x| + 4, |x| + 4)
      == [segments[0]] + segments[1..]
    ensures SplitFrom(x + Headed(segments), p, p) == [x[p..]] + segments
  {
    var g, rest := segments[0], Headed(segments[1..]);
    AppendHeaded(x, segments);
    SplitHeadedStep(x, g, rest, p);
    HeadTail(segments);
  }

  lemma AppendHeaded(x: string, segments: seq<string>)
    requires segments != []
    ensures x + Headed(segments) == x + "### " + segments[0] + Headed(segments[1..])
  {
  }

  lemma SplitHeadedStep(x: string, g: string, rest: string, p: nat)
    requires p <= |x| && HashSafe(x[p..])
    requires g != [] && !IsSpace(g[0])
    requires |x| == 0 || IsLineTerminator(x[|x| - 1])
    ensures SplitFrom(x + "### " + g + rest, p, p)
            == [x[p..]] + SplitFrom(x + "### " + g + rest, |x| + 4, |x| + 4)
  {
    assert x + "### " + g + rest == x + ("### " + g + rest);
    SkipPrefix(x, "### " + g + rest, p);
    HeaderBetween(x, g, rest, p);
  }

  lemma NextPrefix(x: string, g: string)
    requires SplittableSegment(g)
    ensures |x| + 4 <= |x + "### " + g|
    ensures (x + "### " + g)[|x| + 4..] == g
    ensures HashSafe((x + "### " + g)[|x| + 4..])
    ensures IsLineTerminator((x + "### " + g)[|x + "### " + g| - 1])
  {
    var x' := x + "### " + g;
    assert x'[|x| + 4..] == g;
    assert x'[|x'| - 1] == g[|g| - 1];
  }

  lemma SkipPrefix(x: string, rest: string, p: nat)
    requires p <= |x| && HashSafe(x[p..])
    ensures SplitFrom(x + rest, p, p) == SplitFrom(x + rest, p, |x|)
  {
    var s := x + rest;
    assert s[p..|x|] == x[p..];
    HashSafeInside(s, p, |x|);
    SkipNoHeader(s, p, p, |x|);
  }

  lemma HeaderBetween(x: string, g: string, rest: string, p: nat)
    requires p <= |x| && g != [] && !IsSpace(g[0])
    requires |x| == 0 || IsLineTerminator(x[|x| - 1])
    ensures SplitFrom(x + "### " + g + rest, p, |x|)
            == [x[p..]] + SplitFrom(x + "### " + g + rest, |x| + 4, |x| + 4)
  {
    var s := x + "### " + g + rest;
    assert s[|x|..|x| + 4] == "### ";
    assert s[|x| + 4] == g[0];
    assert |x| > 0 ==> s[|x| - 1] == x[|x| - 1];
    SplitAtHeader(s, p, |x|);
    assert s[p..|x|] == x[p..];
  }

  /** The whole split of such text. */
  lemma SplitSectionsHeaded(x: string, segments: seq<string>)
    requires HashSafe(x)
    requires segments != [] ==> |x| == 0 || IsLineTerminator(x[|x| - 1])
    requires forall i :: 0 <= i < |segments| ==> SplittableSegment(segments[i])
    ensures SplitSections(x + Headed(segments)) == [x] + segments
  {
    SplitHeaded(x, segments, 0);
  }
}
