// scripts/plan_sections.py: the sections of one task, cut out of the plan.
module PlanSections {
  import opened Prelude
  import opened Tiling
  import opened PlanStatus

  datatype Section = Section(name: string, startLine: nat, endLine: nat)

  // The last line of a task before the next "## " heading inside its range.
  function BoundedEnd(lines: seq<Line>, from: nat, end: nat): (e: nat)
    requires from <= end <= |lines|
    ensures from <= e <= end
    ensures forall n | from <= n < e :: !lines[n].StoryHeading?
    ensures e < end ==> lines[e].StoryHeading?
    decreases end - from
  {
    if from == end || lines[from].StoryHeading? then from else BoundedEnd(lines, from + 1, end)
  }

  // The 0-based lines in lo..hi-1 that are section headings.
  function HeadingsIn(lines: seq<Line>, lo: nat, hi: nat): (hs: seq<nat>)
    requires lo <= hi <= |lines|
    ensures forall k | 0 <= k < |hs| :: lo <= hs[k] < hi && lines[hs[k]].SectionHeading?
    ensures forall j, k | 0 <= j < k < |hs| :: hs[j] < hs[k]
    decreases hi - lo
  {
    if lo == hi then []
    else
      var earlier := HeadingsIn(lines, lo, hi - 1);
      if lines[hi - 1].SectionHeading? then earlier + [hi - 1] else earlier
  }

  // A section runs from its heading to the line before the next one.
  function SectionAt(lines: seq<Line>, headings: seq<nat>, end: nat, k: nat): Section
    requires k < |headings| && headings[k] < |lines| && lines[headings[k]].SectionHeading?
  {
    Section(lines[headings[k]].name, headings[k] + 1, if k + 1 < |headings| then headings[k + 1] else end)
  }

  function RangesOf(lines: seq<Line>, headings: seq<nat>, end: nat): (r: seq<Section>)
    requires forall k | 0 <= k < |headings| :: headings[k] < |lines| && lines[headings[k]].SectionHeading?
    ensures |r| == |headings|
    ensures forall k | 0 <= k < |r| :: r[k] == SectionAt(lines, headings, end, k)
  {
    seq(|headings|, k requires 0 <= k < |headings| && headings[k] < |lines| && lines[headings[k]].SectionHeading?
                    => SectionAt(lines, headings, end, k))
  }

  function SectionsIn(lines: seq<Line>, start: nat, end: nat): seq<Section>
    requires 1 <= start <= end <= |lines|
  {
    RangesOf(lines, HeadingsIn(lines, start - 1, end), end)
  }

  method SectionRanges(lines: seq<Line>, start: nat, end: nat) returns (results: seq<Section>)
    requires 1 <= start <= end <= |lines|
    ensures results == SectionsIn(lines, start, end)
  {
    var headings: seq<nat> := [];
    var index := start - 1;
    while index < end
      invariant start - 1 <= index <= end
      invariant headings == HeadingsIn(lines, start - 1, index)
    {
      if lines[index].SectionHeading? {
        headings := headings + [index];
      }
      index := index + 1;
    }
    results := [];
    var offset := 0;
    while offset < |headings|
      invariant 0 <= offset <= |headings|
      invariant |results| == offset
      invariant forall k | 0 <= k < offset :: results[k] == SectionAt(lines, headings, end, k)
    {
      var next := if offset + 1 < |headings| then headings[offset + 1] else end;
      results := results + [Section(lines[headings[offset]].name, headings[offset] + 1, next)];
      offset := offset + 1;
    }
    assert results == RangesOf(lines, headings, end);
  }

  method BoundedTaskEnd(lines: seq<Line>, start: nat, end: nat) returns (bounded: nat)
    requires 1 <= start <= end <= |lines|
    ensures bounded == BoundedEnd(lines, start, end)
  {
    var lineNo := start + 1;
    while lineNo <= end
      invariant start + 1 <= lineNo <= end + 1
      invariant BoundedEnd(lines, start, end) == BoundedEnd(lines, lineNo - 1, end)
    {
      if lines[lineNo - 1].StoryHeading? {
        return lineNo - 1;
      }
      lineNo := lineNo + 1;
    }
    return end;
  }

  // ---- tiling ----

  function RangesFor(sections: seq<Section>): (r: seq<Range>)
    ensures |r| == |sections|
    ensures forall k | 0 <= k < |r| :: r[k] == Range(sections[k].startLine, sections[k].endLine)
  {
    seq(|sections|, k requires 0 <= k < |sections| => Range(sections[k].startLine, sections[k].endLine))
  }

  // The lines before the first section heading, and then the sections.
  function Pieces(lines: seq<Line>, start: nat, end: nat): seq<Range>
    requires 1 <= start <= end <= |lines|
  {
    var sections := SectionsIn(lines, start, end);
    var first := if sections == [] then end + 1 else sections[0].startLine;
    [Range(start, first - 1)] + RangesFor(sections)
  }

  // Ranges that each start where the one before ends, the last ending at "end", tile.
  lemma {:induction false} ChainTiles(ranges: seq<Range>, end: int)
    requires ranges != [] && ranges[|ranges| - 1].end == end
    requires forall k | 0 <= k < |ranges| :: ranges[k].start <= ranges[k].end <= end
    requires forall k | 0 <= k < |ranges| - 1 :: ranges[k].end + 1 == ranges[k + 1].start
    ensures Tiles(ranges, ranges[0].start, end)
  {
    if |ranges| > 1 {
      ChainTiles(ranges[1..], end);
    } else {
      assert ranges[1..] == [];
    }
  }

  lemma PiecesChain(lines: seq<Line>, start: nat, end: nat, k: nat)
    requires 1 <= start <= end <= |lines| && !lines[start - 1].SectionHeading?
    requires k < |Pieces(lines, start, end)|
    ensures var p := Pieces(lines, start, end);
      && p[k].start <= p[k].end <= end
      && p[k].end == if k + 1 < |p| then p[k + 1].start - 1 else end
  {
    var hs, sections := HeadingsIn(lines, start - 1, end), SectionsIn(lines, start, end);
    assert k > 0 ==> sections[k - 1] == SectionAt(lines, hs, end, k - 1);
    assert k < |hs| ==> sections[k] == SectionAt(lines, hs, end, k) && hs[k] != start - 1;
  }

  // Metadata and sections cut the lines start..end into consecutive pieces.
  lemma SectionsTile(lines: seq<Line>, start: nat, end: nat)
    requires 1 <= start <= end <= |lines| && !lines[start - 1].SectionHeading?
    ensures Tiles(Pieces(lines, start, end), start, end)
  {
    var p := Pieces(lines, start, end);
    forall k | 0 <= k < |p|
      ensures p[k].start <= p[k].end <= end && p[k].end == if k + 1 < |p| then p[k + 1].start - 1 else end
    {
      PiecesChain(lines, start, end, k);
    }
    ChainTiles(p, end);
  }

  lemma {:induction false} HeadingsAreAll(lines: seq<Line>, lo: nat, hi: nat, n: nat)
    requires lo <= n < hi <= |lines| && lines[n].SectionHeading?
    ensures n in HeadingsIn(lines, lo, hi)
    decreases hi
  {
    if n < hi - 1 { HeadingsAreAll(lines, lo, hi - 1, n); }
  }

  // Each section has exactly one section heading, its first line.
  lemma SectionsHaveOneHeading(lines: seq<Line>, start: nat, end: nat, k: nat)
    requires 1 <= start <= end <= |lines| && k < |SectionsIn(lines, start, end)|
    ensures var s := SectionsIn(lines, start, end)[k];
      && start <= s.startLine <= s.endLine <= end
      && lines[s.startLine - 1].SectionHeading? && lines[s.startLine - 1].name == s.name
      && forall n | s.startLine <= n < s.endLine :: !lines[n].SectionHeading?
  {
    var hs, s := HeadingsIn(lines, start - 1, end), SectionsIn(lines, start, end)[k];
    assert s == SectionAt(lines, hs, end, k);
    forall n | s.startLine <= n < s.endLine ensures !lines[n].SectionHeading? {
      NoHeadingBetween(lines, start - 1, end, k, n);
    }
  }

  lemma NoHeadingBetween(lines: seq<Line>, lo: nat, hi: nat, k: nat, n: nat)
    requires lo <= hi <= |lines| && k < |HeadingsIn(lines, lo, hi)|
    requires var hs := HeadingsIn(lines, lo, hi);
      hs[k] < n < if k + 1 < |hs| then hs[k + 1] else hi
    ensures !lines[n].SectionHeading?
  {
    var hs := HeadingsIn(lines, lo, hi);
    assert n !in hs;
    if lines[n].SectionHeading? { HeadingsAreAll(lines, lo, hi, n); }
  }

  // Both levels: inside every parsed task, metadata and sections tile the lines
  // from its heading to its bounded end.
  lemma TaskSectionsTile(lines: seq<Line>, t: Task)
    requires t in Tasks(lines)
    ensures 1 <= t.startLine <= t.endLine <= |lines|
    ensures Tiles(Pieces(lines, t.startLine, BoundedEnd(lines, t.startLine, t.endLine)),
                  t.startLine, BoundedEnd(lines, t.startLine, t.endLine))
  {
    TasksHaveOneHeading(lines, 0, t);
    SectionsTile(lines, t.startLine, BoundedEnd(lines, t.startLine, t.endLine));
  }

  // ---- extraction ----

  datatype Extract = Extract(section: Section, content: seq<Line>)

  // "requested" is None for "*"; "normal" is normalize_heading.
  function Wanted(requested: Option<seq<string>>, normal: string -> string): Option<set<string>> {
    if requested.None? then None else Some(set item | item in requested.value :: normal(item))
  }

  predicate Ranged(lines: seq<Line>, sections: seq<Section>) {
    forall s | s in sections :: 1 <= s.startLine <= s.endLine <= |lines|
  }

  lemma RangedInit(lines: seq<Line>, sections: seq<Section>, k: nat)
    requires Ranged(lines, sections) && k <= |sections|
    ensures Ranged(lines, sections[..k])
  {
  }

  predicate WantedName(wanted: Option<set<string>>, name: string) { wanted.None? || name in wanted.value }

  function Chosen(lines: seq<Line>, sections: seq<Section>, wanted: Option<set<string>>,
      normal: string -> string): seq<Extract>
    requires Ranged(lines, sections)
  {
    if sections == [] then []
    else
      var n := |sections| - 1;
      RangedInit(lines, sections, n);
      var earlier, s := Chosen(lines, sections[..n], wanted, normal), sections[n];
      if !WantedName(wanted, normal(s.name)) then earlier
      else earlier + [Extract(s, lines[s.startLine - 1..s.endLine])]
  }

  function WantedOf(sections: seq<Section>, wanted: Option<set<string>>, normal: string -> string): seq<Section> {
    if sections == [] then []
    else
      var earlier, last := WantedOf(sections[..|sections| - 1], wanted, normal), sections[|sections| - 1];
      if WantedName(wanted, normal(last.name)) then earlier + [last] else earlier
  }

  lemma {:induction false} WantedMeans(
    sections: seq<Section>, wanted: Option<set<string>>, normal: string -> string, x: Section)
    ensures Subsequence(WantedOf(sections, wanted, normal), sections)
    ensures multiset(WantedOf(sections, wanted, normal))[x]
         == if WantedName(wanted, normal(x.name)) then multiset(sections)[x] else 0
  {
    if sections != [] {
      var init, last := sections[..|sections| - 1], sections[|sections| - 1];
      assert sections == init + [last];
      WantedMeans(init, wanted, normal, x);
      SubsequenceSnoc(WantedOf(init, wanted, normal), init, last);
    }
  }

  // The sections kept are all of them for "*", and otherwise those whose name normalises
  // as a requested item does; in order and as often as they occur.
  lemma RequestedMeans(
    sections: seq<Section>, requested: Option<seq<string>>, normal: string -> string, x: Section)
    ensures var kept := WantedOf(sections, Wanted(requested, normal), normal);
      && Subsequence(kept, sections)
      && multiset(kept)[x]
           == if requested.None? || exists item :: item in requested.value && normal(item) == normal(x.name)
              then multiset(sections)[x] else 0
  {
    WantedMeans(sections, Wanted(requested, normal), normal, x);
  }

  // The extracts are the sections kept, each with its own lines.
  lemma {:induction false} ChosenMeans(
    lines: seq<Line>, sections: seq<Section>, wanted: Option<set<string>>, normal: string -> string)
    requires Ranged(lines, sections)
    ensures var chosen, kept := Chosen(lines, sections, wanted, normal), WantedOf(sections, wanted, normal);
      |chosen| == |kept| && forall k | 0 <= k < |chosen| :: ExtractOf(lines, kept[k], chosen[k])
  {
    if sections != [] {
      RangedInit(lines, sections, |sections| - 1);
      ChosenMeans(lines, sections[..|sections| - 1], wanted, normal);
    }
  }

  predicate ExtractOf(lines: seq<Line>, s: Section, e: Extract) {
    e.section == s && 1 <= s.startLine <= s.endLine <= |lines| && e.content == lines[s.startLine - 1..s.endLine]
  }

  function Names(sections: seq<Section>, normal: string -> string): set<string> {
    set s | s in sections :: normal(s.name)
  }

  function Missing(requested: seq<string>, found: set<string>, normal: string -> string): seq<string> {
    if requested == [] then []
    else
      var n := |requested| - 1;
      var earlier := Missing(requested[..n], found, normal);
      if normal(requested[n]) in found then earlier else earlier + [requested[n]]
  }

  lemma {:induction false} MissingCounts(requested: seq<string>, found: set<string>, normal: string -> string)
    ensures Subsequence(Missing(requested, found, normal), requested)
    ensures forall item ::
      multiset(Missing(requested, found, normal))[item]
      == (if normal(item) in found then 0 else multiset(requested)[item])
  {
    if requested != [] {
      var init, last := requested[..|requested| - 1], requested[|requested| - 1];
      assert requested == init + [last];
      MissingCounts(init, found, normal);
      SubsequenceSnoc(Missing(init, found, normal), init, last);
    }
  }

  // The loop that picks the wanted sections and remembers the names it found.
  method PickSections(lines: seq<Line>, ranges: seq<Section>, wanted: Option<set<string>>, normal: string -> string)
    returns (sections: seq<Extract>, found: set<string>)
    requires Ranged(lines, ranges)
    ensures sections == Chosen(lines, ranges, wanted, normal)
    ensures forall name :: name in found <==> name in Names(ranges, normal) && WantedName(wanted, name)
  {
    found := {};
    sections := [];
    var i := 0;
    while i < |ranges|
      invariant 0 <= i <= |ranges|
      invariant sections == Chosen(lines, ranges[..i], wanted, normal)
      invariant forall name ::
        name in found <==> name in Names(ranges[..i], normal) && WantedName(wanted, name)
    {
      assert ranges[..i + 1][..i] == ranges[..i];
      var item := ranges[i];
      assert Names(ranges[..i + 1], normal) == Names(ranges[..i], normal) + {normal(item.name)};
      if WantedName(wanted, normal(item.name)) {
        found := found + {normal(item.name)};
        sections := sections + [Extract(item, lines[item.startLine - 1..item.endLine])];
      }
      i := i + 1;
    }
    assert ranges[..i] == ranges;
  }

  lemma SectionsInBounds(lines: seq<Line>, start: nat, end: nat)
    requires 1 <= start <= end <= |lines|
    ensures forall s | s in SectionsIn(lines, start, end) :: start <= s.startLine <= s.endLine <= end
  {
    var all := SectionsIn(lines, start, end);
    forall s | s in all ensures start <= s.startLine <= s.endLine <= end {
      var k :| 0 <= k < |all| && all[k] == s;
      SectionsHaveOneHeading(lines, start, end, k);
    }
  }

  predicate HasHeading(lines: seq<Line>, start: nat, end: nat, name: string, normal: string -> string)
    requires 1 <= start <= end <= |lines|
  {
    exists n :: start <= n < end && lines[n].SectionHeading? && normal(lines[n].name) == name
  }

  // The missing items are exactly the requested ones that no section heading normalises
  // to, in order and as often as they were requested.
  ghost predicate AreMissing(
    lines: seq<Line>, start: nat, end: nat, requested: seq<string>, missing: seq<string>, normal: string -> string)
    requires 1 <= start <= end <= |lines|
  {
    && Subsequence(missing, requested)
    && forall item :: multiset(missing)[item]
         == (if HasHeading(lines, start, end, normal(item), normal) then 0 else multiset(requested)[item])
  }

  lemma MissingMeans(
    lines: seq<Line>, start: nat, end: nat, requested: seq<string>, found: set<string>, normal: string -> string)
    requires 1 <= start <= end <= |lines| && !lines[start - 1].SectionHeading?
    requires forall name :: name in found <==>
      name in Names(SectionsIn(lines, start, end), normal) && WantedName(Wanted(Some(requested), normal), name)
    ensures AreMissing(lines, start, end, requested, Missing(requested, found, normal), normal)
  {
    NamesAreHeadings(lines, start, end, normal);
    MissingCounts(requested, found, normal);
    forall item | item in requested
      ensures normal(item) in found <==> HasHeading(lines, start, end, normal(item), normal)
    {
      assert WantedName(Wanted(Some(requested), normal), normal(item));
    }
  }

  method TaskSections(lines: seq<Line>, t: Task, requested: Option<seq<string>>, normal: string -> string)
    returns (metadata: seq<Line>, sections: seq<Extract>, missing: seq<string>)
    requires 1 <= t.startLine <= t.endLine <= |lines| && !lines[t.startLine - 1].SectionHeading?
    ensures var end := BoundedEnd(lines, t.startLine, t.endLine);
      var all := SectionsIn(lines, t.startLine, end);
      && Ranged(lines, all)
      && metadata == lines[t.startLine - 1..if all == [] then end else all[0].startLine - 1]
      && sections == Chosen(lines, all, Wanted(requested, normal), normal)
    ensures requested.None? ==> missing == []
    ensures requested.Some? ==>
      AreMissing(lines, t.startLine, BoundedEnd(lines, t.startLine, t.endLine), requested.value, missing, normal)
  {
    var end := BoundedTaskEnd(lines, t.startLine, t.endLine);
    var ranges := SectionRanges(lines, t.startLine, end);
    SectionsInBounds(lines, t.startLine, end);
    var firstSection := if |ranges| > 0 then ranges[0].startLine else end + 1;
    metadata := lines[t.startLine - 1..firstSection - 1];
    var found;
    sections, found := PickSections(lines, ranges, Wanted(requested, normal), normal);
    missing := [];
    if requested.Some? {
      missing := Missing(requested.value, found, normal);
      MissingMeans(lines, t.startLine, end, requested.value, found, normal);
    }
  }

  lemma NameHasHeading(lines: seq<Line>, start: nat, end: nat, normal: string -> string, name: string)
    requires 1 <= start <= end <= |lines| && !lines[start - 1].SectionHeading?
    requires name in Names(SectionsIn(lines, start, end), normal)
    ensures exists n :: start <= n < end && lines[n].SectionHeading? && normal(lines[n].name) == name
  {
    var sections, hs := SectionsIn(lines, start, end), HeadingsIn(lines, start - 1, end);
    var s :| s in sections && normal(s.name) == name;
    var k :| 0 <= k < |sections| && sections[k] == s;
    assert sections[k] == SectionAt(lines, hs, end, k);
    assert hs[k] != start - 1;
    assert lines[hs[k]].SectionHeading?;
  }

  lemma HeadingHasName(lines: seq<Line>, start: nat, end: nat, normal: string -> string, n: nat)
    requires 1 <= start <= n < end <= |lines| && lines[n].SectionHeading?
    ensures normal(lines[n].name) in Names(SectionsIn(lines, start, end), normal)
  {
    var sections, hs := SectionsIn(lines, start, end), HeadingsIn(lines, start - 1, end);
    HeadingsAreAll(lines, start - 1, end, n);
    var k :| 0 <= k < |hs| && hs[k] == n;
    assert sections[k] == SectionAt(lines, hs, end, k) && sections[k] in sections;
  }

  lemma NamesAreHeadings(lines: seq<Line>, start: nat, end: nat, normal: string -> string)
    requires 1 <= start <= end <= |lines| && !lines[start - 1].SectionHeading?
    ensures forall name :: name in Names(SectionsIn(lines, start, end), normal) <==>
      exists n :: start <= n < end && lines[n].SectionHeading? && normal(lines[n].name) == name
  {
    forall name | name in Names(SectionsIn(lines, start, end), normal)
      ensures exists n :: start <= n < end && lines[n].SectionHeading? && normal(lines[n].name) == name
    {
      NameHasHeading(lines, start, end, normal, name);
    }
    forall n | start <= n < end && lines[n].SectionHeading?
      ensures normal(lines[n].name) in Names(SectionsIn(lines, start, end), normal)
    {
      HeadingHasName(lines, start, end, normal, n);
    }
  }
}
