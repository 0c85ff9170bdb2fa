// What a seeding call ends with, in every interleaving: each result has its cause,
// and the calls of others never change it.
module AuthSeedRuns {
  import opened Prelude
  import opened AuthSeed

  // A copy told to overwrite; every other call must not.
  predicate MayOverwrite(call: Call) { call.kind == Copy(true) }

  // ---- every result has its cause ----

  // The action happened at some point of the run and had an effect there.
  ghost predicate Took(files: map<Path, Origin>, actions: seq<Action>, a: Action) {
    exists k :: 0 <= k < |actions| && TookAt(files, actions, a, k)
  }

  ghost predicate TookAt(files: map<Path, Origin>, actions: seq<Action>, a: Action, k: nat)
    requires k < |actions|
  {
    actions[k] == a && Step(Run(files, actions[..k]), a) != Run(files, actions[..k])
  }

  // The call looked for its file and found it present, or missing.
  ghost predicate Looked(files: map<Path, Origin>, actions: seq<Action>, c: CallId, key: Path, present: bool) {
    exists k :: 0 <= k < |actions| && TookAt(files, actions, AgentStat(c, false), k)
             && (key in Run(files, actions[..k]).files <==> present)
  }

  // What led a call to this stage: unless it may overwrite it found its file missing, and
  // every later stage and every result names the outcomes that led to it.
  ghost predicate Cause(files: map<Path, Origin>, actions: seq<Action>, c: CallId, call: Call) {
    && (call.pc.CheckingAgent? ==> !MayOverwrite(call))
    && (call.pc.CheckingPrimary? || call.pc.MakingDir? || call.pc.Copying? || call.pc == Finished(Copied) ==>
          MayOverwrite(call) || Looked(files, actions, c, call.key, false))
    && (call.pc.MakingDir? || call.pc.Copying? || call.pc == Finished(Copied) ==>
          Took(files, actions, PrimaryStat(c, Some(true))))
    && (call.pc.Copying? || call.pc == Finished(Copied) ==> Took(files, actions, DirMade(c, false)))
    && (call.pc == Finished(Copied) ==> Took(files, actions, CopyEnds(c, CopySucceeds)))
    && (call.pc == Finished(Skipped) ==>
          || (!MayOverwrite(call) && Looked(files, actions, c, call.key, true))
          || Took(files, actions, PrimaryStat(c, Some(false))))
    && (call.pc == Finished(Warned) ==>
          || Took(files, actions, AgentStat(c, true)) || Took(files, actions, PrimaryStat(c, None))
          || Took(files, actions, DirMade(c, true)) || Took(files, actions, CopyEnds(c, CopyFailsUntouched))
          || Took(files, actions, CopyEnds(c, CopyFailsPartway)))
  }

  ghost predicate Explained(files: map<Path, Origin>, actions: seq<Action>, c: CallId)
    requires c < |Run(files, actions).calls|
  {
    Cause(files, actions, c, Run(files, actions).calls[c])
  }

  lemma TookLater(files: map<Path, Origin>, actions: seq<Action>, a: Action)
    requires actions != [] && Took(files, actions[..|actions| - 1], a)
    ensures Took(files, actions, a)
  {
    var init := actions[..|actions| - 1];
    var k :| 0 <= k < |init| && TookAt(files, init, a, k);
    assert init[..k] == actions[..k];
    assert TookAt(files, actions, a, k);
  }

  lemma LookedLater(files: map<Path, Origin>, actions: seq<Action>, c: CallId, key: Path, present: bool)
    requires actions != [] && Looked(files, actions[..|actions| - 1], c, key, present)
    ensures Looked(files, actions, c, key, present)
  {
    var init := actions[..|actions| - 1];
    var k :| 0 <= k < |init| && TookAt(files, init, AgentStat(c, false), k)
          && (key in Run(files, init[..k]).files <==> present);
    assert init[..k] == actions[..k];
    assert TookAt(files, actions, AgentStat(c, false), k);
  }

  lemma CauseLater(files: map<Path, Origin>, actions: seq<Action>, c: CallId, call: Call)
    requires actions != [] && Cause(files, actions[..|actions| - 1], c, call)
    ensures Cause(files, actions, c, call)
  {
    var init := actions[..|actions| - 1];
    forall a | Took(files, init, a) ensures Took(files, actions, a) { TookLater(files, actions, a); }
    forall present | Looked(files, init, c, call.key, present) ensures Looked(files, actions, c, call.key, present) {
      LookedLater(files, actions, c, call.key, present);
    }
  }

  // Which action took the call to its new stage, and from where.
  lemma StepCause(s: Seeding, a: Action)
    requires !a.Arrive? && Step(s, a) != s
    ensures a.call < |s.calls| && a.call < |Step(s, a).calls|
    ensures var c, was, now := a.call, s.calls[a.call], Step(s, a).calls[a.call];
      && now.key == was.key && now.kind == was.kind && !now.pc.AwaitingLock?
      && (now.pc.CheckingAgent? ==> !MayOverwrite(was))
      && (now.pc.CheckingPrimary? ==> MayOverwrite(was) || (a == AgentStat(c, false) && was.key !in s.files))
      && (now.pc.MakingDir? ==> a == PrimaryStat(c, Some(true)) && was.pc.CheckingPrimary?)
      && (now.pc.Copying? ==> a == DirMade(c, false) && was.pc.MakingDir?)
      && (now.pc == Finished(Copied) ==> a == CopyEnds(c, CopySucceeds) && was.pc.Copying?)
      && (now.pc == Finished(Skipped) ==>
            || (a == AgentStat(c, false) && was.key in s.files && was.pc.CheckingAgent?)
            || a == PrimaryStat(c, Some(false)))
      && (now.pc == Finished(Warned) ==>
            || a == AgentStat(c, true) || a == PrimaryStat(c, None) || a == DirMade(c, true)
            || a == CopyEnds(c, CopyFailsUntouched) || a == CopyEnds(c, CopyFailsPartway))
  {
    if a.PrimaryStat? && a.present.Some? {
      var found := a.present.value;
      assert a.present == Some(found);
      if found { assert a.present == Some(true); } else { assert a.present == Some(false); }
    }
  }

  lemma OwnExplained(files: map<Path, Origin>, actions: seq<Action>)
    requires actions != [] && !actions[|actions| - 1].Arrive?
    requires var s, a := Run(files, actions[..|actions| - 1]), actions[|actions| - 1];
      Step(s, a) != s && a.call < |s.calls| && Explained(files, actions[..|actions| - 1], a.call)
    ensures var c := actions[|actions| - 1].call; c < |Run(files, actions).calls| && Explained(files, actions, c)
  {
    var n := |actions| - 1;
    var s, a := Run(files, actions[..n]), actions[n];
    var was := s.calls[a.call];
    StepCause(s, a);
    CauseLater(files, actions, a.call, was);
    assert TookAt(files, actions, a, n);
    if a.AgentStat? && !a.failed { assert Looked(files, actions, a.call, was.key, was.key in s.files); }
    CauseNext(files, actions, s, a);
  }

  lemma CauseNext(files: map<Path, Origin>, actions: seq<Action>, s: Seeding, a: Action)
    requires !a.Arrive? && Step(s, a) != s && a.call < |s.calls| && a.call < |Step(s, a).calls|
    requires Cause(files, actions, a.call, s.calls[a.call]) && Took(files, actions, a)
    requires a == AgentStat(a.call, false) ==>
      Looked(files, actions, a.call, s.calls[a.call].key, s.calls[a.call].key in s.files)
    ensures Cause(files, actions, a.call, Step(s, a).calls[a.call])
  {
    StepCause(s, a);
  }

  // Everything else leaves the call as it is.
  lemma OthersLeave(s: Seeding, a: Action, c: CallId)
    requires c < |s.calls| && (a.Arrive? || Step(s, a) == s || a.call != c)
    ensures c < |Step(s, a).calls| && Step(s, a).calls[c] == s.calls[c]
  {
    if !a.Arrive? && Step(s, a) != s { StepCases(s, a); }
  }

  // In every run, a call copies only after the primary was there (and, unless it may
  // overwrite, its own file was not), skips only because its file was there or the
  // primary was not, and warns only because something failed.
  lemma {:induction false} ResultExplained(files: map<Path, Origin>, actions: seq<Action>, c: CallId)
    requires c < |Run(files, actions).calls|
    ensures Explained(files, actions, c)
  {
    if actions != [] {
      var n := |actions| - 1;
      var s, a := Run(files, actions[..n]), actions[n];
      if c < |s.calls| {
        ResultExplained(files, actions[..n], c);
        if !a.Arrive? && Step(s, a) != s && a.call == c {
          OwnExplained(files, actions);
        } else {
          OthersLeave(s, a, c);
          CauseLater(files, actions, c, s.calls[c]);
        }
      } else if !a.Arrive? && Step(s, a) != s {
        StepCases(s, a);
      }
    }
  }

  // ---- the calls of others do not matter ----

  function RunFrom(s: Seeding, actions: seq<Action>): Seeding {
    if actions == [] then s else Step(RunFrom(s, actions[..|actions| - 1]), actions[|actions| - 1])
  }

  // The actions of call c.
  function Own(actions: seq<Action>, c: CallId): seq<Action> {
    if actions == [] then []
    else
      var init, last := Own(actions[..|actions| - 1], c), actions[|actions| - 1];
      if !last.Arrive? && last.call == c then init + [last] else init
  }

  function FileOf(s: Seeding, key: Path): Option<Origin> { if key in s.files then Some(s.files[key]) else None }

  // The call is in the same state in both, and so is its file while the call is inside.
  predicate SameFor(s: Seeding, t: Seeding, c: CallId) {
    && c < |s.calls| && c < |t.calls| && s.calls[c] == t.calls[c] && !s.calls[c].pc.AwaitingLock?
    && (s.calls[c].Inside() ==> FileOf(s, s.calls[c].key) == FileOf(t, t.calls[c].key))
  }

  // While a call is inside, no other touches it or its file.
  lemma OthersWait(s: Seeding, a: Action, c: CallId)
    requires LockInv(s) && c < |s.calls| && s.calls[c].Inside() && (a.Arrive? || a.call != c)
    ensures c < |Step(s, a).calls| && Step(s, a).calls[c] == s.calls[c]
    ensures FileOf(Step(s, a), s.calls[c].key) == FileOf(s, s.calls[c].key)
  {
    OthersLeave(s, a, c);
    FilesChange(s, a);
    if a.CopyEnds? && At(s, a.call, Copying) && s.calls[a.call].key == s.calls[c].key {
      OnlyOneInside(s, c, a.call);
    }
  }

  // A call's own action does the same wherever the call and its file are the same.
  lemma SameStage(s: Seeding, t: Seeding, c: CallId, a: Action)
    requires SameFor(s, t, c) && !a.Arrive? && a.call == c
    ensures c < |Step(s, a).calls| && c < |Step(t, a).calls| && Step(s, a).calls[c] == Step(t, a).calls[c]
    ensures !Step(s, a).calls[c].pc.AwaitingLock? && Step(s, a).calls[c].key == s.calls[c].key
  {
  }

  lemma SameFile(s: Seeding, t: Seeding, c: CallId, a: Action)
    requires SameFor(s, t, c) && !a.Arrive? && a.call == c && s.calls[c].Inside()
    ensures FileOf(Step(s, a), s.calls[c].key) == FileOf(Step(t, a), s.calls[c].key)
  {
    FilesChange(s, a);
    FilesChange(t, a);
  }

  lemma FinishedStays(s: Seeding, a: Action)
    requires !a.Arrive? && a.call < |s.calls| && s.calls[a.call].pc.Finished?
    ensures Step(s, a) == s
  {
  }

  lemma SameStep(s: Seeding, t: Seeding, c: CallId, a: Action)
    requires SameFor(s, t, c) && !a.Arrive? && a.call == c
    ensures SameFor(Step(s, a), Step(t, a), c)
  {
    SameStage(s, t, c, a);
    if s.calls[c].Inside() { SameFile(s, t, c, a); } else { FinishedStays(s, a); }
  }

  lemma OtherStep(s: Seeding, t: Seeding, c: CallId, a: Action)
    requires LockInv(s) && SameFor(s, t, c) && (a.Arrive? || a.call != c)
    ensures SameFor(Step(s, a), t, c)
  {
    OthersLeave(s, a, c);
    if s.calls[c].Inside() { OthersWait(s, a, c); }
  }

  // Once a call is past the lock, what happens to it in any interleaving is what its
  // own actions alone would do.
  lemma {:induction false} OthersDoNotMatter(s: Seeding, actions: seq<Action>, c: CallId)
    requires LockInv(s) && c < |s.calls| && !s.calls[c].pc.AwaitingLock?
    ensures LockInv(RunFrom(s, actions)) && SameFor(RunFrom(s, actions), RunFrom(s, Own(actions, c)), c)
  {
    if actions != [] {
      var n := |actions| - 1;
      var a, before := actions[n], RunFrom(s, actions[..n]);
      OthersDoNotMatter(s, actions[..n], c);
      StepKeepsLock(before, a);
      if !a.Arrive? && a.call == c {
        assert Own(actions, c)[..|Own(actions, c)| - 1] == Own(actions[..n], c);
        SameStep(before, RunFrom(s, Own(actions[..n], c)), c, a);
      } else {
        OtherStep(before, RunFrom(s, Own(actions[..n], c)), c, a);
      }
    }
  }

  // ---- the outcome of one call ----

  // The outcomes a call meets on its way.
  datatype Luck = Luck(statFails: bool, primary: Option<bool>, mkdirFails: bool, copy: CopyOutcome)

  function Attempt(c: CallId, luck: Luck, overwrites: bool): seq<Action> {
    (if overwrites then [] else [AgentStat(c, luck.statFails)])
    + [PrimaryStat(c, luck.primary), DirMade(c, luck.mkdirFails)]
  }

  // What the call is promised to end with, given whether its file was there at first.
  function Promised(luck: Luck, overwrites: bool, present: bool): Result {
    if !overwrites && luck.statFails then Warned
    else if !overwrites && present then Skipped
    else if luck.primary.None? then Warned
    else if !luck.primary.value then Skipped
    else if !luck.mkdirFails && luck.copy.CopySucceeds? then Copied
    else Warned
  }

  // The checks of the agent's file, of the primary's, and of the directory.
  lemma AgentOutcome(s: Seeding, c: CallId, failed: bool)
    requires At(s, c, CheckingAgent)
    ensures var t := Step(s, AgentStat(c, failed));
      && t.files == s.files && c < |t.calls|
      && t.calls[c].key == s.calls[c].key && t.calls[c].kind == s.calls[c].kind
      && t.calls[c].pc == if failed then Finished(Warned)
                          else if s.calls[c].key in s.files then Finished(Skipped) else CheckingPrimary
  {
  }

  lemma PrimaryOutcome(s: Seeding, c: CallId, present: Option<bool>)
    requires At(s, c, CheckingPrimary)
    ensures var t := Step(s, PrimaryStat(c, present));
      && t.files == s.files && c < |t.calls| && t.calls[c].key == s.calls[c].key
      && t.calls[c].pc == if present.None? then Finished(Warned)
                          else if present.value then MakingDir else Finished(Skipped)
  {
  }

  lemma DirOutcome(s: Seeding, c: CallId, failed: bool)
    requires At(s, c, MakingDir)
    ensures var t := Step(s, DirMade(c, failed));
      && t.files == s.files && c < |t.calls| && t.calls[c].key == s.calls[c].key
      && t.calls[c].pc == if failed then Finished(Warned) else Copying
  {
  }

  // The call gets as far as copying.
  predicate Reaches(luck: Luck, overwrites: bool, present: bool) {
    (overwrites || (!luck.statFails && !present)) && luck.primary == Some(true) && !luck.mkdirFails
  }

  lemma CopyOutcomeIs(s: Seeding, c: CallId, outcome: CopyOutcome)
    requires At(s, c, Copying)
    ensures var t := Step(s, CopyEnds(c, outcome));
      && c < |t.calls| && t.calls[c].pc == Finished(if outcome.CopySucceeds? then Copied else Warned)
      && FileOf(t, s.calls[c].key) == match outcome
                                      case CopySucceeds => Some(CopiedBy(c))
                                      case CopyFailsPartway => Some(PartialBy(c))
                                      case CopyFailsUntouched => FileOf(s, s.calls[c].key)
  {
  }

  lemma PrimaryAndDir(s: Seeding, c: CallId, luck: Luck)
    requires At(s, c, CheckingPrimary)
    ensures var t := Step(Step(s, PrimaryStat(c, luck.primary)), DirMade(c, luck.mkdirFails));
      && c < |t.calls| && t.calls[c].key == s.calls[c].key && t.files == s.files
      && (if luck.primary == Some(true) && !luck.mkdirFails then t.calls[c].pc == Copying
          else t.calls[c].pc == Finished(if luck.primary == Some(false) then Skipped else Warned))
  {
    var t := Step(s, PrimaryStat(c, luck.primary));
    PrimaryOutcome(s, c, luck.primary);
    if luck.primary == Some(true) {
      DirOutcome(t, c, luck.mkdirFails);
    } else {
      FinishedStays(t, DirMade(c, luck.mkdirFails));
    }
  }

  // Alone, up to its copy.
  lemma AloneOutcome(s: Seeding, c: CallId, luck: Luck)
    requires c < |s.calls|
    requires s.calls[c].pc == if MayOverwrite(s.calls[c]) then CheckingPrimary else CheckingAgent
    ensures var call := s.calls[c];
      var t := RunFrom(s, Attempt(c, luck, MayOverwrite(call)));
      var promised := Promised(luck, MayOverwrite(call), call.key in s.files);
      && c < |t.calls| && t.calls[c].key == call.key
      && (t.calls[c].pc == Finished(promised)
          || (t.calls[c].pc == Copying && promised == if luck.copy.CopySucceeds? then Copied else Warned))
      && FileOf(t, call.key) == FileOf(s, call.key)
      && (Reaches(luck, MayOverwrite(call), call.key in s.files) ==> t.calls[c].pc == Copying)
      && (promised == Copied ==> t.calls[c].pc == Copying)
  {
    var primary, dir, agent := PrimaryStat(c, luck.primary), DirMade(c, luck.mkdirFails), AgentStat(c, luck.statFails);
    if MayOverwrite(s.calls[c]) {
      TwoSteps(s, primary, dir);
      assert Attempt(c, luck, true) == [primary, dir];
      PrimaryAndDir(s, c, luck);
    } else {
      ThreeSteps(s, agent, primary, dir);
      assert Attempt(c, luck, false) == [agent, primary, dir];
      AgentOutcome(s, c, luck.statFails);
      var t := Step(s, agent);
      if At(t, c, CheckingPrimary) {
        PrimaryAndDir(t, c, luck);
      } else {
        FinishedStays(t, primary);
        FinishedStays(t, dir);
      }
    }
  }

  lemma TwoSteps(s: Seeding, a: Action, b: Action)
    ensures RunFrom(s, [a, b]) == Step(Step(s, a), b)
  {
    assert [a][..0] == [] && RunFrom(s, [a]) == Step(s, a);
    assert [a, b][..1] == [a];
  }

  lemma ThreeSteps(s: Seeding, a: Action, b: Action, d: Action)
    ensures RunFrom(s, [a, b, d]) == Step(Step(Step(s, a), b), d)
  {
    TwoSteps(s, a, b);
    assert [a, b, d][..2] == [a, b];
  }

  // A call past the lock meets its outcomes while any other calls arrive, wait, run and
  // end in between: it ends as promised, and a copy it makes is then in place.
  lemma CallOutcome(files: map<Path, Origin>, actions: seq<Action>, later: seq<Action>, c: CallId, luck: Luck)
    requires c < |Run(files, actions).calls|
    requires var call := Run(files, actions).calls[c];
      && call.pc == (if MayOverwrite(call) then CheckingPrimary else CheckingAgent)
      && Own(later, c) == Attempt(c, luck, MayOverwrite(call))
    ensures var s := Run(files, actions); var call := s.calls[c];
      var t := RunFrom(s, later + [CopyEnds(c, luck.copy)]);
      var promised := Promised(luck, MayOverwrite(call), call.key in s.files);
      && c < |t.calls| && t.calls[c].pc == Finished(promised)
      && (Reaches(luck, MayOverwrite(call), call.key in s.files) ==>
            FileOf(t, call.key) == match luck.copy
                                   case CopySucceeds => Some(CopiedBy(c))
                                   case CopyFailsPartway => Some(PartialBy(c))
                                   case CopyFailsUntouched => FileOf(s, call.key))
  {
    var s := Run(files, actions);
    RunKeepsLock(files, actions);
    OthersDoNotMatter(s, later, c);
    AloneOutcome(s, c, luck);
    var t := RunFrom(s, later);
    if At(t, c, Copying) { CopyOutcomeIs(t, c, luck.copy); } else { FinishedStays(t, CopyEnds(c, luck.copy)); }
    assert (later + [CopyEnds(c, luck.copy)])[..|later|] == later;
  }
}
