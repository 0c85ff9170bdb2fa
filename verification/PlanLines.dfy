// What the parsed fields of a task say about the lines of the plan, and what one
// normalisation does to each line.
module PlanLines {
  import opened Prelude
  import opened PlanStatus
  import opened SelectCurrentTask

  // Line n (0-based) lies below the last of the section headings from "lo" on that is
  // above it, and that heading is of this kind.
  ghost predicate InSection(lines: seq<Line>, lo: nat, n: nat, kind: SectionKind)
    requires n <= |lines|
  {
    exists h :: lo <= h < n && HeadsSection(lines, h, n, kind)
  }

  predicate HeadsSection(lines: seq<Line>, h: nat, n: nat, kind: SectionKind)
    requires h < n <= |lines|
  {
    lines[h].SectionHeading? && lines[h].kind == kind && forall j | h < j < n :: !lines[j].SectionHeading?
  }

  // The checkboxes on lines lo..hi (0-based, hi excluded) in sections of this kind.
  ghost function BoxLines(lines: seq<Line>, lo: nat, hi: nat, kind: SectionKind): set<nat>
    requires lo <= hi <= |lines|
  {
    set n: nat | lo <= n < hi && lines[n].Checkbox? && InSection(lines, lo, n, kind)
  }

  ghost function TickedLines(lines: seq<Line>, lo: nat, hi: nat, kind: SectionKind): set<nat>
    requires lo <= hi <= |lines|
  {
    set n: nat | lo <= n < hi && lines[n].Checkbox? && lines[n].checked && InSection(lines, lo, n, kind)
  }

  ghost function OpenLines(lines: seq<Line>, lo: nat, hi: nat, kind: SectionKind): set<nat>
    requires lo <= hi <= |lines|
  {
    set n: nat | lo <= n < hi && lines[n].Checkbox? && !lines[n].checked && InSection(lines, lo, n, kind)
  }

  lemma {:induction false} SectionAfterMeans(lines: seq<Line>, lo: nat, n: nat, kind: SectionKind)
    requires lo <= n <= |lines| && !kind.OtherSection?
    ensures SectionAfter(lines[lo..n]) == kind <==> InSection(lines, lo, n, kind)
    decreases n
  {
    if lo < n {
      var body := lines[lo..n];
      assert body[..|body| - 1] == lines[lo..n - 1] && body[|body| - 1] == lines[n - 1];
      SectionAfterMeans(lines, lo, n - 1, kind);
      if lines[n - 1].SectionHeading? {
        assert lines[n - 1].kind == kind ==> HeadsSection(lines, n - 1, n, kind);
      } else {
        if InSection(lines, lo, n - 1, kind) {
          var h :| lo <= h < n - 1 && HeadsSection(lines, h, n - 1, kind);
          assert HeadsSection(lines, h, n, kind);
        }
        if InSection(lines, lo, n, kind) {
          var h :| lo <= h < n && HeadsSection(lines, h, n, kind);
          assert HeadsSection(lines, h, n - 1, kind);
        }
      }
    }
  }

  // What one more line adds.
  lemma OneMoreLine(lines: seq<Line>, lo: nat, n: nat, kind: SectionKind)
    requires lo <= n < |lines|
    ensures var counted := lines[n].Checkbox? && InSection(lines, lo, n, kind);
      && BoxLines(lines, lo, n + 1, kind) == BoxLines(lines, lo, n, kind) + (if counted then {n} else {})
      && TickedLines(lines, lo, n + 1, kind)
          == TickedLines(lines, lo, n, kind) + (if counted && lines[n].checked then {n} else {})
      && OpenLines(lines, lo, n + 1, kind)
          == OpenLines(lines, lo, n, kind) + (if counted && !lines[n].checked then {n} else {})
  {
  }

  lemma CountOneMore(lines: seq<Line>, lo: nat, n: nat, kind: SectionKind)
    requires lo <= n < |lines| && !kind.OtherSection?
    ensures CountBoxes(lines[lo..n + 1], kind)
         == if lines[n].Checkbox? && InSection(lines, lo, n, kind)
            then CountBoxes(lines[lo..n], kind).Tick(lines[n].checked) else CountBoxes(lines[lo..n], kind)
  {
    var body := lines[lo..n + 1];
    assert body[..|body| - 1] == lines[lo..n] && body[|body| - 1] == lines[n];
    SectionAfterMeans(lines, lo, n, kind);
  }

  ghost predicate Counted(lines: seq<Line>, lo: nat, hi: nat, kind: SectionKind, boxes: Boxes)
    requires lo <= hi <= |lines|
  {
    && boxes.total == |BoxLines(lines, lo, hi, kind)|
    && boxes.checked == |TickedLines(lines, lo, hi, kind)|
    && boxes.unchecked == |OpenLines(lines, lo, hi, kind)|
  }

  lemma Grown(s: set<nat>, n: nat)
    requires n !in s
    ensures |s + {n}| == |s| + 1 && s + {} == s
  {
  }

  lemma CountedOneMore(lines: seq<Line>, lo: nat, n: nat, kind: SectionKind, boxes: Boxes)
    requires lo <= n < |lines| && Counted(lines, lo, n, kind, boxes)
    ensures Counted(lines, lo, n + 1, kind,
        if lines[n].Checkbox? && InSection(lines, lo, n, kind) then boxes.Tick(lines[n].checked) else boxes)
  {
    OneMoreLine(lines, lo, n, kind);
    Grown(BoxLines(lines, lo, n, kind), n);
    Grown(TickedLines(lines, lo, n, kind), n);
    Grown(OpenLines(lines, lo, n, kind), n);
  }

  // The counters of a section kind count its boxes, the ticked ones and the open ones.
  lemma {:induction false} CountsMean(lines: seq<Line>, lo: nat, hi: nat, kind: SectionKind)
    requires lo <= hi <= |lines| && !kind.OtherSection?
    ensures Counted(lines, lo, hi, kind, CountBoxes(lines[lo..hi], kind))
    decreases hi
  {
    if lo < hi {
      CountsMean(lines, lo, hi - 1, kind);
      CountOneMore(lines, lo, hi - 1, kind);
      CountedOneMore(lines, lo, hi - 1, kind, CountBoxes(lines[lo..hi - 1], kind));
    } else {
      assert BoxLines(lines, lo, hi, kind) == {} && TickedLines(lines, lo, hi, kind) == {};
      assert OpenLines(lines, lo, hi, kind) == {};
    }
  }

  // Line n holds the last status line of lo..hi.
  predicate LastStatusAt(lines: seq<Line>, lo: nat, hi: nat, n: int)
    requires hi <= |lines|
  {
    lo <= n < hi && lines[n].StatusLine? && forall j | n < j < hi :: !lines[j].StatusLine?
  }

  lemma {:induction false} StatusIsLast(lines: seq<Line>, lo: nat, hi: nat, n: int)
    requires lo <= hi <= |lines| && LastStatusAt(lines, lo, hi, n)
    ensures LastStatus(lines[lo..hi]) == Some(lines[n].status)
    decreases hi
  {
    var body := lines[lo..hi];
    assert body[..|body| - 1] == lines[lo..hi - 1] && body[|body| - 1] == lines[hi - 1];
    if n < hi - 1 { StatusIsLast(lines, lo, hi - 1, n); }
  }

  lemma {:induction false} NoStatus(lines: seq<Line>, lo: nat, hi: nat)
    requires lo <= hi <= |lines| && forall n | lo <= n < hi :: !lines[n].StatusLine?
    ensures LastStatus(lines[lo..hi]).None?
    decreases hi
  {
    if lo < hi {
      var body := lines[lo..hi];
      assert body[..|body| - 1] == lines[lo..hi - 1] && body[|body| - 1] == lines[hi - 1];
      NoStatus(lines, lo, hi - 1);
    }
  }

  lemma {:induction false} HasLastStatus(lines: seq<Line>, lo: nat, hi: nat) returns (n: int)
    requires hi <= |lines| && exists j :: lo <= j < hi && lines[j].StatusLine?
    ensures LastStatusAt(lines, lo, hi, n)
    decreases hi
  {
    if lines[hi - 1].StatusLine? { n := hi - 1; } else { n := HasLastStatus(lines, lo, hi - 1); }
  }

  lemma StatusMeans(lines: seq<Line>, lo: nat, hi: nat)
    requires lo <= hi <= |lines|
    ensures LastStatus(lines[lo..hi]).None? <==> forall n | lo <= n < hi :: !lines[n].StatusLine?
    ensures forall n | LastStatusAt(lines, lo, hi, n) :: LastStatus(lines[lo..hi]) == Some(lines[n].status)
  {
    forall n | LastStatusAt(lines, lo, hi, n) ensures LastStatus(lines[lo..hi]) == Some(lines[n].status) {
      StatusIsLast(lines, lo, hi, n);
    }
    if exists n :: lo <= n < hi && lines[n].StatusLine? {
      var n := HasLastStatus(lines, lo, hi);
    } else {
      NoStatus(lines, lo, hi);
    }
  }

  lemma {:induction false} BlockersMean(lines: seq<Line>, lo: nat, hi: nat)
    requires lo <= hi <= |lines|
    ensures forall b ::
      b in BlockersIn(lines[lo..hi], lo + 1) <==> lo + 1 <= b.line <= hi && lines[b.line - 1] == Blocker(b.text)
    decreases hi
  {
    if lo < hi {
      var body := lines[lo..hi];
      assert body[..|body| - 1] == lines[lo..hi - 1] && body[|body| - 1] == lines[hi - 1];
      BlockersMean(lines, lo, hi - 1);
    }
  }

  // ---- the fields of a parsed task ----

  // A task's body is lines[startLine..endLine] in 0-based numbers.
  lemma TaskOfLines(lines: seq<Line>, t: Task)
    requires t in Tasks(lines)
    ensures 1 <= t.startLine <= t.endLine <= |lines|
    ensures var lo, hi := t.startLine, t.endLine;
      && t.subtasks.total == |BoxLines(lines, lo, hi, Subtasks)|
      && t.subtasks.checked == |TickedLines(lines, lo, hi, Subtasks)|
      && t.subtasks.unchecked == |OpenLines(lines, lo, hi, Subtasks)|
      && t.testing.total == |BoxLines(lines, lo, hi, Testing)|
      && t.testing.checked == |TickedLines(lines, lo, hi, Testing)|
      && t.testing.unchecked == |OpenLines(lines, lo, hi, Testing)|
      && (t.status.None? <==> forall n | lo <= n < hi :: !lines[n].StatusLine?)
      && (forall n | LastStatusAt(lines, lo, hi, n) :: t.status == Some(lines[n].status))
      && (forall b :: b in t.liveBlockers <==> lo < b.line <= hi && lines[b.line - 1] == Blocker(b.text))
  {
    TasksHaveOneHeading(lines, 0, t);
    CountsMean(lines, t.startLine, t.endLine, Subtasks);
    CountsMean(lines, t.startLine, t.endLine, Testing);
    StatusMeans(lines, t.startLine, t.endLine);
    BlockersMean(lines, t.startLine, t.endLine);
  }

  ghost predicate OpenBox(lines: seq<Line>, t: Task, n: nat)
    requires t.endLine <= |lines|
  {
    && t.startLine <= n < t.endLine && lines[n].Checkbox? && !lines[n].checked
    && (InSection(lines, t.startLine, n, Subtasks) || InSection(lines, t.startLine, n, Testing))
  }

  ghost predicate AnyBox(lines: seq<Line>, t: Task, n: nat)
    requires t.endLine <= |lines|
  {
    && t.startLine <= n < t.endLine && lines[n].Checkbox?
    && (InSection(lines, t.startLine, n, Subtasks) || InSection(lines, t.startLine, n, Testing))
  }

  // Nothing in the task's lines is left to do: no open box under subtasks or testing
  // and no live blocker.
  ghost predicate NothingOpen(lines: seq<Line>, t: Task)
    requires t.endLine <= |lines|
  {
    && (forall n: nat :: !OpenBox(lines, t, n))
    && forall n | t.startLine <= n < t.endLine :: !lines[n].Blocker?
  }

  ghost predicate SaysStatus(lines: seq<Line>, t: Task, status: string)
    requires t.endLine <= |lines|
  {
    exists n :: LastStatusAt(lines, t.startLine, t.endLine, n) && lines[n].status == status
  }

  // The lines say: in progress, with boxes, and nothing left to do.
  ghost predicate FinishedInProgress(lines: seq<Line>, t: Task)
    requires t.endLine <= |lines|
  {
    SaysStatus(lines, t, IN_PROGRESS) && (exists n: nat :: AnyBox(lines, t, n)) && NothingOpen(lines, t)
  }

  lemma StatusOfLines(lines: seq<Line>, t: Task, status: string)
    requires t in Tasks(lines)
    ensures t.endLine <= |lines| && (t.Is(status) <==> SaysStatus(lines, t, status))
  {
    TaskOfLines(lines, t);
    if t.Is(status) { var n := HasLastStatus(lines, t.startLine, t.endLine); }
  }

  lemma CleanMeans(lines: seq<Line>, t: Task)
    requires t in Tasks(lines)
    ensures t.endLine <= |lines| && (t.Clean() <==> NothingOpen(lines, t))
  {
    TaskOfLines(lines, t);
    var lo, hi := t.startLine, t.endLine;
    if n: nat :| OpenBox(lines, t, n) {
      assert n in OpenLines(lines, lo, hi, Subtasks) || n in OpenLines(lines, lo, hi, Testing);
    }
    if n :| lo <= n < hi && lines[n].Blocker? {
      assert LiveBlocker(n + 1, lines[n].text) in t.liveBlockers;
    }
    if t.HasLiveBlocker() {
      var b := t.liveBlockers[0];
      assert b in t.liveBlockers;
      assert lines[b.line - 1].Blocker?;
    } else if !t.Clean() {
      var open := if t.HasUncheckedSubtasks() then OpenLines(lines, lo, hi, Subtasks)
                  else OpenLines(lines, lo, hi, Testing);
      var n :| n in open;
      assert OpenBox(lines, t, n);
    }
  }

  lemma BoxesMean(lines: seq<Line>, t: Task)
    requires t in Tasks(lines)
    ensures t.endLine <= |lines|
    ensures t.subtasks.total > 0 || t.testing.total > 0 <==> exists n: nat :: AnyBox(lines, t, n)
  {
    TaskOfLines(lines, t);
    var sub := BoxLines(lines, t.startLine, t.endLine, Subtasks);
    var test := BoxLines(lines, t.startLine, t.endLine, Testing);
    if n: nat :| AnyBox(lines, t, n) { assert n in sub || n in test; }
    if n :| n in sub + test { assert AnyBox(lines, t, n); }
    assert sub == {} && test == {} ==> |sub| == 0 && |test| == 0;
    if |sub| > 0 || |test| > 0 { assert sub + test != {}; }
  }

  // The selector's idea of a finished task is the one its lines give.
  lemma StaleMeans(lines: seq<Line>, t: Task)
    requires t in Tasks(lines)
    ensures t.endLine <= |lines| && (Stale(t) <==> FinishedInProgress(lines, t))
  {
    StatusOfLines(lines, t, IN_PROGRESS);
    CleanMeans(lines, t);
    BoxesMean(lines, t);
  }

  // The story is complete exactly if there is a task, and every task's lines say done
  // and leave nothing to do.
  lemma StoryCompleteMeans(lines: seq<Line>)
    ensures forall t | t in Tasks(lines) :: t.endLine <= |lines|
    ensures StoryComplete(Tasks(lines)) <==>
      Tasks(lines) != [] && forall t | t in Tasks(lines) :: SaysStatus(lines, t, DONE) && NothingOpen(lines, t)
  {
    forall t | t in Tasks(lines)
      ensures t.endLine <= |lines|
      ensures t.Is(DONE) && t.Clean() <==> SaysStatus(lines, t, DONE) && NothingOpen(lines, t)
    {
      StatusOfLines(lines, t, DONE);
      CleanMeans(lines, t);
    }
  }

  // ---- which lines a normalisation changes ----

  lemma {:induction false} HeadingHasTask(lines: seq<Line>, i: nat, h: nat)
    requires i <= h < |lines| && lines[h].TaskHeading?
    ensures TaskAt(lines, h) in TasksFrom(lines, i)
    decreases h - i
  {
    if i < h { HeadingHasTask(lines, i + 1, h); }
  }

  lemma {:induction false} OwnerHasHeading(lines: seq<Line>, k: nat) returns (h: nat)
    requires k <= |lines| && Owner(lines[..k]).Some?
    ensures h < k && lines[h].TaskHeading? && Owner(lines[..k]) == Some(lines[h].number)
    ensures forall j | h < j < k :: !lines[j].TaskHeading?
    decreases k
  {
    assert lines[..k][..k - 1] == lines[..k - 1];
    if lines[k - 1].TaskHeading? { h := k - 1; } else { h := OwnerHasHeading(lines, k - 1); }
  }

  // Line k lies in the body of task t.
  predicate InTask(t: Task, k: nat) { t.startLine <= k < t.endLine }

  lemma OwnerIsTask(lines: seq<Line>, k: nat, n: nat)
    requires k < |lines| && !lines[k].TaskHeading?
    ensures Owner(lines[..k]) == Some(n) <==> exists t :: t in Tasks(lines) && InTask(t, k) && t.number == n
  {
    if Owner(lines[..k]) == Some(n) {
      var h := OwnerHasHeading(lines, k);
      HeadingHasTask(lines, 0, h);
      var end := NextHeading(lines, h + 1);
      assert end == |lines| || lines[end].TaskHeading?;
      assert InTask(TaskAt(lines, h), k);
    }
    if t :| t in Tasks(lines) && InTask(t, k) && t.number == n {
      TasksHaveOneHeading(lines, 0, t);
      OwnerInTask(lines, t.startLine - 1, k);
    }
  }

  // Line k is in a task whose number a finished task carries (its own, unless numbers
  // are shared).
  ghost predicate InFinishedNumber(lines: seq<Line>, k: nat) {
    exists t, s :: t in Tasks(lines) && s in Tasks(lines) && InTask(t, k) && t.number == s.number
                && s.endLine <= |lines| && FinishedInProgress(lines, s)
  }

  // Exactly these lines change: status lines that do not say done yet, in a task whose
  // number a finished task carries; and they then say done.
  lemma NormalizedLine(lines: seq<Line>, k: nat)
    requires k < |lines|
    ensures Normalized(lines)[k] ==
      if lines[k].StatusLine? && InFinishedNumber(lines, k) then lines[k].(status := DONE) else lines[k]
  {
    var tasks, u := Tasks(lines), StaleUpdates(Tasks(lines));
    RewriteAt(lines, u, k);
    if lines[k].StatusLine? {
      if InFinishedNumber(lines, k) {
        var t, s :| t in tasks && s in tasks && InTask(t, k) && t.number == s.number
                 && s.endLine <= |lines| && FinishedInProgress(lines, s);
        StaleMeans(lines, s);
        OwnerIsTask(lines, k, t.number);
        assert s.number in u;
      } else if Owner(lines[..k]).Some? && Owner(lines[..k]).value in u {
        OwnerIsTask(lines, k, Owner(lines[..k]).value);
        var t :| t in tasks && InTask(t, k) && t.number == Owner(lines[..k]).value;
        var s :| s in tasks && Stale(s) && s.number == t.number;
        StaleMeans(lines, s);
      }
    }
  }

  // Two tasks with a line in common are the same.
  lemma SameTask(lines: seq<Line>, t: Task, s: Task, k: nat)
    requires t in Tasks(lines) && s in Tasks(lines) && InTask(t, k) && InTask(s, k)
    ensures t == s
  {
    TasksHaveOneHeading(lines, 0, t);
    TasksHaveOneHeading(lines, 0, s);
    assert s.startLine == t.startLine;
  }

  // With a number of its own, a task's status line changes only if its own lines say
  // finished,
  lemma FinishedItself(lines: seq<Line>, t: Task, k: nat)
    requires t in Tasks(lines) && InTask(t, k) && InFinishedNumber(lines, k)
    requires forall s | s in Tasks(lines) && s.number == t.number :: s == t
    ensures t.endLine <= |lines| && FinishedInProgress(lines, t)
  {
    var x, s :| x in Tasks(lines) && s in Tasks(lines) && InTask(x, k) && x.number == s.number
             && s.endLine <= |lines| && FinishedInProgress(lines, s);
    SameTask(lines, t, x, k);
  }

  // so it keeps its status while one of its boxes is open or a blocker is live.
  lemma OpenTaskKeepsStatus(lines: seq<Line>, t: Task, k: nat)
    requires t in Tasks(lines) && InTask(t, k) && t.endLine <= |lines| && !NothingOpen(lines, t)
    requires forall s | s in Tasks(lines) && s.number == t.number :: s == t
    ensures Normalized(lines)[k] == lines[k]
  {
    NormalizedLine(lines, k);
    if InFinishedNumber(lines, k) { FinishedItself(lines, t, k); }
  }
}
