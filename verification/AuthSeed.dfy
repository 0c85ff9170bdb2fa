// server/src/agents/authSeed.ts: a keyed promise-chain lock around
// check-then-copy. A call is suspended at each await, so an execution is a
// sequence of atomic actions, one per await point.
module AuthSeed {
  import opened Prelude

  type Path = string  // the agent's auth.json, which is also the lock key
  type CallId = nat   // calls are numbered by arrival

  datatype Kind = Ensure | Copy(overwrite: bool) {
    predicate Overwrites() { Copy? && overwrite }
  }

  datatype Result = Skipped | Copied | Warned

  // The await a call is suspended at.
  datatype Pc = AwaitingLock | CheckingAgent | CheckingPrimary | MakingDir | Copying | Finished(result: Result)

  // A call's chain promise is identified with the call: "previous" is the call
  // whose chain it awaits, "released" says its own "next" promise is resolved.
  datatype Call = Call(key: Path, kind: Kind, previous: Option<CallId>, released: bool, pc: Pc) {
    predicate Inside() { !pc.AwaitingLock? && !pc.Finished? }
  }

  datatype Origin = Initial | CopiedBy(call: CallId) | PartialBy(call: CallId)

  datatype Seeding = Seeding(calls: seq<Call>, locks: map<Path, CallId>, files: map<Path, Origin>)

  datatype CopyOutcome = CopySucceeds | CopyFailsUntouched | CopyFailsPartway

  // None in a stat or mkdir outcome is an exception.
  datatype Action =
    | Arrive(key: Path, kind: Kind)
    | Wake(call: CallId)
    | AgentStat(call: CallId, failed: bool)
    | PrimaryStat(call: CallId, present: Option<bool>)
    | DirMade(call: CallId, failed: bool)
    | CopyEnds(call: CallId, outcome: CopyOutcome)

  // chain = previous.then(() => next): resolved once "next" and everything before it is.
  predicate ChainResolved(calls: seq<Call>, c: CallId)
    decreases c
  {
    c < |calls| && calls[c].released &&
    match calls[c].previous
    case None => true
    case Some(d) => d < c && ChainResolved(calls, d)
  }

  predicate At(s: Seeding, c: CallId, pc: Pc) { c < |s.calls| && s.calls[c].pc == pc }

  function Goto(s: Seeding, c: CallId, pc: Pc): Seeding
    requires c < |s.calls|
  {
    s.(calls := s.calls[c := s.calls[c].(pc := pc)])
  }

  // The finally block: resolve "next", and drop the map entry if it is still this call's.
  function Leave(s: Seeding, c: CallId, result: Result): Seeding
    requires c < |s.calls|
  {
    var key := s.calls[c].key;
    s.(calls := s.calls[c := s.calls[c].(released := true, pc := Finished(result))],
       locks := if key in s.locks && s.locks[key] == c then s.locks - {key} else s.locks)
  }

  function LockArrives(s: Seeding, key: Path, kind: Kind): Seeding {
    var previous := if key in s.locks then Some(s.locks[key]) else None;
    s.(calls := s.calls + [Call(key, kind, previous, false, AwaitingLock)], locks := s.locks[key := |s.calls|])
  }

  predicate CanWake(s: Seeding, c: CallId) {
    && At(s, c, AwaitingLock)
    && (s.calls[c].previous.Some? ==> ChainResolved(s.calls, s.calls[c].previous.value))
  }

  // An action that is not possible in a state leaves it alone.
  function Step(s: Seeding, a: Action): Seeding {
    match a
    case Arrive(key, kind) => LockArrives(s, key, kind)
    case Wake(c) =>
      if !CanWake(s, c) then s
      else Goto(s, c, if s.calls[c].kind.Overwrites() then CheckingPrimary else CheckingAgent)
    case AgentStat(c, failed) =>
      if !At(s, c, CheckingAgent) then s
      else if failed then Leave(s, c, Warned)
      else if s.calls[c].key in s.files then Leave(s, c, Skipped)
      else Goto(s, c, CheckingPrimary)
    case PrimaryStat(c, present) =>
      if !At(s, c, CheckingPrimary) then s
      else if present == None then Leave(s, c, Warned)
      else if present == Some(false) then Leave(s, c, Skipped)
      else Goto(s, c, MakingDir)
    case DirMade(c, failed) =>
      if !At(s, c, MakingDir) then s
      else if failed then Leave(s, c, Warned) else Goto(s, c, Copying)
    case CopyEnds(c, outcome) =>
      if !At(s, c, Copying) then s
      else
        var key := s.calls[c].key;
        match outcome
        case CopySucceeds => Leave(s.(files := s.files[key := CopiedBy(c)]), c, Copied)
        case CopyFailsUntouched => Leave(s, c, Warned)
        case CopyFailsPartway => Leave(s.(files := s.files[key := PartialBy(c)]), c, Warned)
  }

  function Start(files: map<Path, Origin>): Seeding { Seeding([], map[], files) }

  function Run(files: map<Path, Origin>, actions: seq<Action>): Seeding {
    if actions == [] then Start(files)
    else Step(Run(files, actions[..|actions| - 1]), actions[|actions| - 1])
  }

  // ---- the lock ----

  ghost predicate SameKey(s: Seeding, c: CallId, d: CallId) {
    c < |s.calls| && d < |s.calls| && s.calls[c].key == s.calls[d].key
  }

  ghost predicate Done(s: Seeding, c: CallId) { c < |s.calls| && s.calls[c].pc.Finished? }

  // Every call on c's key that arrived before c has finished.
  ghost predicate EarlierDone(s: Seeding, c: CallId) {
    forall d: CallId | d < c && SameKey(s, c, d) :: Done(s, d)
  }

  ghost predicate CallOk(s: Seeding, c: CallId)
    requires c < |s.calls|
  {
    var call := s.calls[c];
    && (call.released <==> call.pc.Finished?)
    && (!call.pc.AwaitingLock? || call.previous == None ==> EarlierDone(s, c))
    && (call.previous.Some? ==>
          && call.previous.value < c && SameKey(s, c, call.previous.value)
          && forall d: CallId | call.previous.value < d < c :: !SameKey(s, c, d))
  }

  // The map names the last arrival of a key, and only while that call is unfinished.
  ghost predicate LocksOk(s: Seeding) {
    && (forall k | k in s.locks :: s.locks[k] < |s.calls| && s.calls[s.locks[k]].key == k && !Done(s, s.locks[k]))
    && (forall c: CallId | c < |s.calls| && !Done(s, c) :: s.calls[c].key in s.locks && c <= s.locks[s.calls[c].key])
    && (forall c: CallId | c < |s.calls| && s.calls[c].key in s.locks :: c <= s.locks[s.calls[c].key])
  }

  ghost predicate LockInv(s: Seeding) {
    LocksOk(s) && forall c: CallId | c < |s.calls| :: CallOk(s, c)
  }

  lemma ArriveKeeps(s: Seeding, key: Path, kind: Kind)
    requires LockInv(s)
    ensures LockInv(LockArrives(s, key, kind))
  {
    var u := LockArrives(s, key, kind);
    forall c: CallId | c < |u.calls| ensures CallOk(u, c) {
      assert c < |s.calls| ==> CallOk(s, c) && u.calls[c] == s.calls[c];
      assert c < |s.calls| ==> forall d: CallId | d < c :: SameKey(u, c, d) ==> SameKey(s, c, d);
      forall d: CallId | d < |s.calls| ensures Done(u, d) <==> Done(s, d) {}
    }
  }

  lemma GotoKeeps(s: Seeding, c: CallId, pc: Pc)
    requires LockInv(s) && c < |s.calls| && !Done(s, c) && !pc.Finished? && !pc.AwaitingLock?
    requires EarlierDone(s, c)
    ensures LockInv(Goto(s, c, pc))
  {
    var u := Goto(s, c, pc);
    forall d: CallId | d < |u.calls| ensures CallOk(u, d) {
      assert CallOk(s, d);
      assert forall e: CallId :: SameKey(u, d, e) <==> SameKey(s, d, e);
      assert forall e: CallId :: Done(u, e) <==> Done(s, e);
    }
  }

  lemma LeaveKeeps(s: Seeding, c: CallId, result: Result)
    requires LockInv(s) && c < |s.calls| && s.calls[c].Inside()
    ensures LockInv(Leave(s, c, result))
  {
    var u := Leave(s, c, result);
    assert CallOk(s, c);
    assert forall d: CallId | d < c && SameKey(s, c, d) :: Done(s, d);
    forall d: CallId | d < |u.calls| && !Done(u, d) ensures u.calls[d].key in u.locks && d <= u.locks[u.calls[d].key] {
      assert d != c && !Done(s, d);
      assert SameKey(s, c, d) ==> d > c;
    }
    forall d: CallId | d < |u.calls| ensures CallOk(u, d) {
      assert CallOk(s, d);
      assert forall e: CallId :: SameKey(u, d, e) <==> SameKey(s, d, e);
      assert forall e: CallId :: Done(u, e) <==> Done(s, e) || e == c;
    }
  }

  // Waking is possible only when every earlier call on the key is done.
  lemma WakeNeedsEarlierDone(s: Seeding, c: CallId)
    requires LockInv(s) && CanWake(s, c)
    ensures EarlierDone(s, c)
  {
    assert CallOk(s, c);
    if s.calls[c].previous.Some? {
      var p := s.calls[c].previous.value;
      assert CallOk(s, p);
      forall d: CallId | d < c && SameKey(s, c, d) ensures Done(s, d) {
        assert SameKey(s, p, d);
      }
    }
  }

  // Every action but an arrival moves one call on or takes it through the finally block.
  lemma StepCases(s: Seeding, a: Action)
    requires !a.Arrive? && Step(s, a) != s
    ensures a.call < |s.calls| && a.call < |Step(s, a).calls|
    ensures var c, u := a.call, Step(s, a);
      if u.calls[c].pc.Finished? then
        s.calls[c].Inside() && u == Leave(s.(files := u.files), c, u.calls[c].pc.result)
      else
        && !u.calls[c].pc.AwaitingLock? && u == Goto(s, c, u.calls[c].pc)
        && (if a.Wake? then CanWake(s, c) else s.calls[c].Inside())
  {
  }

  lemma StepKeepsLock(s: Seeding, a: Action)
    requires LockInv(s)
    ensures LockInv(Step(s, a))
  {
    if a.Arrive? {
      ArriveKeeps(s, a.key, a.kind);
    } else if Step(s, a) != s {
      StepCases(s, a);
      MoveKeeps(s, a.call, Step(s, a));
    }
  }

  lemma MoveKeeps(s: Seeding, c: CallId, u: Seeding)
    requires LockInv(s) && c < |s.calls| && c < |u.calls| && (s.calls[c].Inside() || CanWake(s, c))
    requires if u.calls[c].pc.Finished? then
        s.calls[c].Inside() && u == Leave(s.(files := u.files), c, u.calls[c].pc.result)
      else
        !u.calls[c].pc.AwaitingLock? && u == Goto(s, c, u.calls[c].pc)
    ensures LockInv(u)
  {
    if u.calls[c].pc.Finished? {
      FilesDoNotMatter(s, u.files);
      LeaveKeeps(s.(files := u.files), c, u.calls[c].pc.result);
    } else {
      InsideNeedsEarlierDone(s, c);
      GotoKeeps(s, c, u.calls[c].pc);
    }
  }

  lemma InsideNeedsEarlierDone(s: Seeding, c: CallId)
    requires LockInv(s) && c < |s.calls| && (s.calls[c].Inside() || CanWake(s, c))
    ensures EarlierDone(s, c)
  {
    assert CallOk(s, c);
    if CanWake(s, c) {
      WakeNeedsEarlierDone(s, c);
    }
  }

  lemma FilesDoNotMatter(s: Seeding, files: map<Path, Origin>)
    requires LockInv(s)
    ensures LockInv(s.(files := files))
  {
    var u := s.(files := files);
    forall c: CallId | c < |s.calls| ensures CallOk(u, c) {
      assert CallOk(s, c);
      assert forall d: CallId :: SameKey(u, c, d) <==> SameKey(s, c, d);
      assert forall d: CallId :: Done(u, d) <==> Done(s, d);
    }
    assert forall d: CallId :: Done(u, d) <==> Done(s, d);
  }

  lemma {:induction false} RunKeepsLock(files: map<Path, Origin>, actions: seq<Action>)
    ensures LockInv(Run(files, actions))
  {
    if actions != [] {
      RunKeepsLock(files, actions[..|actions| - 1]);
      StepKeepsLock(Run(files, actions[..|actions| - 1]), actions[|actions| - 1]);
    }
  }

  // Mutual exclusion in arrival order: once a call is past the lock, every
  // earlier call on its key has finished, so no two are ever inside together.
  lemma MutualExclusion(files: map<Path, Origin>, actions: seq<Action>, c: CallId, d: CallId)
    requires var s := Run(files, actions);
      c < d < |s.calls| && s.calls[c].key == s.calls[d].key && !s.calls[d].pc.AwaitingLock?
    ensures Run(files, actions).calls[c].pc.Finished?
  {
    var s := Run(files, actions);
    RunKeepsLock(files, actions);
    assert CallOk(s, d) && SameKey(s, d, c);
  }

  // A key has a map entry exactly while some call holds the lock or waits for it,
  // and the entry is then the latest such call's.
  lemma EntryIffPending(files: map<Path, Origin>, actions: seq<Action>, key: Path)
    ensures var s := Run(files, actions);
      && (key in s.locks <==> exists c: CallId :: c < |s.calls| && s.calls[c].key == key && !s.calls[c].pc.Finished?)
      && (key in s.locks ==>
            && s.locks[key] < |s.calls|
            && forall c: CallId :: c < |s.calls| && s.calls[c].key == key ==> c <= s.locks[key])
  {
    RunKeepsLock(files, actions);
    var s := Run(files, actions);
    assert forall c: CallId | c < |s.calls| :: Done(s, c) <==> s.calls[c].pc.Finished?;
    if key in s.locks {
      assert !s.calls[s.locks[key]].pc.Finished?;
    }
  }

  // No lost wake-up: the first unfinished call of a key is either inside or can wake.
  lemma HeadCanProceed(files: map<Path, Origin>, actions: seq<Action>, c: CallId)
    requires var s := Run(files, actions);
      && c < |s.calls| && s.calls[c].pc.AwaitingLock?
      && forall d: CallId | d < c && s.calls[d].key == s.calls[c].key :: s.calls[d].pc.Finished?
    ensures CanWake(Run(files, actions), c)
  {
    RunKeepsLock(files, actions);
    var s := Run(files, actions);
    assert CallOk(s, c);
    if s.calls[c].previous.Some? {
      FinishedChain(s, s.calls[c].previous.value);
    }
  }

  lemma {:induction false} FinishedChain(s: Seeding, c: CallId)
    requires LockInv(s) && Done(s, c)
    ensures ChainResolved(s.calls, c)
    decreases c
  {
    assert CallOk(s, c);
    if s.calls[c].previous.Some? {
      FinishedChain(s, s.calls[c].previous.value);
    }
  }

  // ---- refinement of a FIFO queue per key ----

  // The specification: a queue whose head may be inside.
  datatype Fifo = Fifo(queue: seq<CallId>, busy: bool)

  datatype FifoStep = Enqueue(call: CallId) | Enter | Exit | Stutter

  function FifoNext(q: Fifo, step: FifoStep): Fifo {
    match step
    case Enqueue(c) => q.(queue := q.queue + [c])
    case Enter => if q.queue != [] && !q.busy then q.(busy := true) else q
    case Exit => if q.queue != [] && q.busy then Fifo(q.queue[1..], false) else q
    case Stutter => q
  }

  // The unfinished calls on a key, in arrival order.
  function Pending(calls: seq<Call>, key: Path): seq<CallId> {
    if calls == [] then []
    else
      var n := |calls| - 1;
      var earlier := Pending(calls[..n], key);
      if calls[n].key == key && !calls[n].pc.Finished? then earlier + [n] else earlier
  }

  function Abstract(s: Seeding, key: Path): Fifo {
    var queue := Pending(s.calls, key);
    Fifo(queue, queue != [] && queue[0] < |s.calls| && s.calls[queue[0]].Inside())
  }

  lemma {:induction false} PendingMember(calls: seq<Call>, key: Path, c: CallId)
    ensures c in Pending(calls, key) <==> c < |calls| && calls[c].key == key && !calls[c].pc.Finished?
  {
    if calls != [] {
      PendingMember(calls[..|calls| - 1], key, c);
    }
  }

  // The head is the earliest unfinished call.
  lemma {:induction false} PendingHead(calls: seq<Call>, key: Path, c: CallId)
    requires c < |calls| && calls[c].key == key && !calls[c].pc.Finished?
    requires forall d: CallId | d < c && calls[d].key == key :: calls[d].pc.Finished?
    ensures Pending(calls, key) != [] && Pending(calls, key)[0] == c
  {
    var n := |calls| - 1;
    if c < n {
      PendingHead(calls[..n], key, c);
    } else {
      PendingMemberless(calls[..n], key);
    }
  }

  // Changing one call's program counter without finishing it changes no queue.
  lemma {:induction false} PendingGoto(calls: seq<Call>, key: Path, c: CallId, call: Call)
    requires c < |calls| && call.key == calls[c].key && !call.pc.Finished? && !calls[c].pc.Finished?
    ensures Pending(calls[c := call], key) == Pending(calls, key)
  {
    var n := |calls| - 1;
    if c < n {
      assert calls[c := call][..n] == calls[..n][c := call];
      PendingGoto(calls[..n], key, c, call);
    } else {
      assert calls[c := call][..n] == calls[..n];
    }
  }

  // Finishing the earliest unfinished call removes the head of its queue only.
  lemma {:induction false} PendingLeave(calls: seq<Call>, key: Path, c: CallId, call: Call)
    requires c < |calls| && call.key == calls[c].key && call.pc.Finished? && !calls[c].pc.Finished?
    requires forall d: CallId | d < c && calls[d].key == calls[c].key :: calls[d].pc.Finished?
    ensures key != call.key ==> Pending(calls[c := call], key) == Pending(calls, key)
    ensures key == call.key ==> Pending(calls, key) != [] && Pending(calls[c := call], key) == Pending(calls, key)[1..]
  {
    var n := |calls| - 1;
    if c < n {
      assert calls[c := call][..n] == calls[..n][c := call];
      PendingLeave(calls[..n], key, c, call);
    } else {
      assert calls[c := call][..n] == calls[..n];
      if key == call.key {
        PendingHead(calls, key, c);
        PendingMemberless(calls[..n], key);
      }
    }
  }

  lemma PendingMemberless(calls: seq<Call>, key: Path)
    requires forall d: CallId | d < |calls| && calls[d].key == key :: calls[d].pc.Finished?
    ensures Pending(calls, key) == []
  {
    if Pending(calls, key) != [] {
      PendingMember(calls, key, Pending(calls, key)[0]);
    }
  }

  // What an action is for the queue of a key.
  function FifoView(s: Seeding, a: Action, key: Path): FifoStep {
    match a
    case Arrive(k, _) => if k == key then Enqueue(|s.calls|) else Stutter
    case _ =>
      var u := Step(s, a);
      if a.call < |s.calls| && a.call < |u.calls| && s.calls[a.call].key == key then
        if s.calls[a.call].pc.AwaitingLock? && u.calls[a.call].Inside() then Enter
        else if s.calls[a.call].Inside() && u.calls[a.call].pc.Finished? then Exit
        else Stutter
      else Stutter
  }

  lemma EarlierFinished(s: Seeding, c: CallId)
    requires c < |s.calls| && EarlierDone(s, c)
    ensures forall d: CallId | d < c && s.calls[d].key == s.calls[c].key :: s.calls[d].pc.Finished?
  {
    forall d: CallId | d < c && s.calls[d].key == s.calls[c].key ensures s.calls[d].pc.Finished? {
      assert SameKey(s, c, d);
    }
  }

  // The first unfinished call is the only one that can be inside.
  lemma ArriveRefines(s: Seeding, key: Path, kind: Kind, k: Path)
    requires LockInv(s)
    ensures Abstract(LockArrives(s, key, kind), k)
         == FifoNext(Abstract(s, k), if key == k then Enqueue(|s.calls|) else Stutter)
  {
    var u := LockArrives(s, key, kind);
    assert u.calls[..|u.calls| - 1] == s.calls;
    if Pending(s.calls, k) != [] {
      PendingMember(s.calls, k, Pending(s.calls, k)[0]);
    }
  }

  lemma GotoRefines(s: Seeding, c: CallId, pc: Pc, k: Path)
    requires c < |s.calls| && !Done(s, c) && EarlierDone(s, c) && !pc.Finished? && !pc.AwaitingLock?
    ensures var q := Abstract(s, k);
      if s.calls[c].key != k then Abstract(Goto(s, c, pc), k) == q
      else
        && q.queue != [] && q.queue[0] == c && q.busy == s.calls[c].Inside()
        && Abstract(Goto(s, c, pc), k) == q.(busy := true)
  {
    PendingGoto(s.calls, k, c, s.calls[c].(pc := pc));
    if s.calls[c].key == k {
      EarlierFinished(s, c);
      PendingHead(s.calls, k, c);
    } else if Pending(s.calls, k) != [] {
      PendingMember(s.calls, k, Pending(s.calls, k)[0]);
    }
  }

  lemma LeaveRefines(s: Seeding, c: CallId, result: Result, k: Path)
    requires LockInv(s) && c < |s.calls| && s.calls[c].Inside()
    ensures var q := Abstract(s, k);
      if s.calls[c].key != k then Abstract(Leave(s, c, result), k) == q
      else
        && q.queue != [] && q.queue[0] == c && q.busy
        && Abstract(Leave(s, c, result), k) == Fifo(q.queue[1..], false)
  {
    var u := Leave(s, c, result);
    InsideNeedsEarlierDone(s, c);
    EarlierFinished(s, c);
    PendingLeave(s.calls, k, c, u.calls[c]);
    if s.calls[c].key == k {
      PendingHead(s.calls, k, c);
      if Pending(u.calls, k) != [] {
        NobodyInside(s, u, c, k);
      }
    } else if Pending(s.calls, k) != [] {
      PendingMember(s.calls, k, Pending(s.calls, k)[0]);
    }
  }

  // After c leaves, the next in line is still waiting.
  lemma NobodyInside(s: Seeding, u: Seeding, c: CallId, k: Path)
    requires LockInv(s) && c < |s.calls| && s.calls[c].Inside() && s.calls[c].key == k
    requires |u.calls| == |s.calls| && forall d: CallId | d < |s.calls| && d != c :: u.calls[d] == s.calls[d]
    requires u.calls[c].pc.Finished? && EarlierDone(s, c)
    requires Pending(u.calls, k) != []
    ensures Pending(u.calls, k)[0] < |u.calls| && u.calls[Pending(u.calls, k)[0]].pc.AwaitingLock?
  {
    var d := Pending(u.calls, k)[0];
    PendingMember(u.calls, k, d);
    assert SameKey(s, c, d) && SameKey(s, d, c);
    assert CallOk(s, d);
  }

  // Every action is a step of the FIFO queue of every key: an arrival joins the
  // back, waking lets the head in, finishing (normally or by an exception)
  // removes the head, and nothing else changes the queue.
  lemma StepRefinesFifo(s: Seeding, a: Action, k: Path)
    requires LockInv(s)
    ensures Abstract(Step(s, a), k) == FifoNext(Abstract(s, k), FifoView(s, a, k))
    ensures var q := Abstract(s, k);
      && (FifoView(s, a, k).Enter? ==> q.queue != [] && !q.busy && q.queue[0] == a.call)
      && (FifoView(s, a, k).Exit? ==> q.queue != [] && q.busy && q.queue[0] == a.call)
  {
    if a.Arrive? {
      ArriveRefines(s, a.key, a.kind, k);
    } else if Step(s, a) != s {
      StepCases(s, a);
      InsideNeedsEarlierDone(s, a.call);
      StepKeepsLock(s, a);
      MoveRefines(s, a.call, Step(s, a), k);
    }
  }

  lemma MoveRefines(s: Seeding, c: CallId, u: Seeding, k: Path)
    requires LockInv(s) && LockInv(u) && c < |s.calls| && c < |u.calls| && EarlierDone(s, c) && !Done(s, c)
    requires if u.calls[c].pc.Finished? then
        s.calls[c].Inside() && u == Leave(s.(files := u.files), c, u.calls[c].pc.result)
      else
        !u.calls[c].pc.AwaitingLock? && u == Goto(s, c, u.calls[c].pc)
    ensures var q := Abstract(s, k);
      if s.calls[c].key != k then Abstract(u, k) == q
      else
        && q.queue != [] && q.queue[0] == c && q.busy == s.calls[c].Inside()
        && Abstract(u, k) == if u.calls[c].pc.Finished? then Fifo(q.queue[1..], false) else q.(busy := true)
  {
    if u.calls[c].pc.Finished? {
      FilesDoNotMatter(s, u.files);
      LeaveRefines(s.(files := u.files), c, u.calls[c].pc.result, k);
    } else {
      GotoRefines(s, c, u.calls[c].pc, k);
    }
  }

  function FifoRun(files: map<Path, Origin>, actions: seq<Action>, k: Path): Fifo {
    if actions == [] then Fifo([], false)
    else
      var n := |actions| - 1;
      FifoNext(FifoRun(files, actions[..n], k), FifoView(Run(files, actions[..n]), actions[n], k))
  }

  // Every run of the promise chains is a run of the FIFO queue.
  lemma {:induction false} RunRefinesFifo(files: map<Path, Origin>, actions: seq<Action>, k: Path)
    ensures Abstract(Run(files, actions), k) == FifoRun(files, actions, k)
  {
    if actions != [] {
      var n := |actions| - 1;
      RunRefinesFifo(files, actions[..n], k);
      RunKeepsLock(files, actions[..n]);
      StepRefinesFifo(Run(files, actions[..n]), actions[n], k);
    }
  }

  // ---- seeding ----

  // A call that must not overwrite has seen the file missing, and still would.
  ghost predicate SawMissing(s: Seeding, c: CallId)
    requires c < |s.calls|
  {
    var call := s.calls[c];
    (call.pc.CheckingPrimary? || call.pc.MakingDir? || call.pc.Copying?) && call.kind != Copy(true)
    ==> call.key !in s.files
  }

  ghost predicate Succeeded(s: Seeding, c: CallId) { c < |s.calls| && s.calls[c].pc == Finished(Copied) }

  ghost predicate SeedInv(s: Seeding) {
    && LockInv(s)
    && (forall c: CallId | c < |s.calls| :: SawMissing(s, c))
    && (forall c: CallId | Succeeded(s, c) :: s.calls[c].key in s.files)
    && (forall c: CallId, d: CallId | c < d && SameKey(s, c, d) && Succeeded(s, c) && Succeeded(s, d) ::
          s.calls[d].kind == Copy(true))
  }

  // Two calls on a key are never both past the lock and unfinished.
  lemma OnlyOneInside(s: Seeding, c: CallId, d: CallId)
    requires LockInv(s) && SameKey(s, c, d) && s.calls[c].Inside() && s.calls[d].Inside()
    ensures c == d
  {
    assert CallOk(s, c) && CallOk(s, d) && SameKey(s, d, c);
  }

  // Only the copying call touches a file, and it touches only its own.
  lemma FilesChange(s: Seeding, a: Action)
    ensures Step(s, a).files == s.files
         || (a.CopyEnds? && At(s, a.call, Copying)
             && var made := if a.outcome.CopySucceeds? then CopiedBy(a.call) else PartialBy(a.call);
                Step(s, a).files == s.files[s.calls[a.call].key := made])
    ensures !a.Arrive? && Step(s, a) != s && a.call < |s.calls| ==>
      (Succeeded(Step(s, a), a.call) ==> At(s, a.call, Copying) && s.calls[a.call].key in Step(s, a).files)
  {
  }

  lemma SawMissingKept(s: Seeding, a: Action, d: CallId)
    requires SeedInv(s) && d < |Step(s, a).calls|
    ensures SawMissing(Step(s, a), d)
  {
    FilesChange(s, a);
    if d < |s.calls| {
      assert SawMissing(s, d);
      if !a.Arrive? && Step(s, a) != s && d != a.call && s.calls[d].Inside() && At(s, a.call, Copying) {
        if SameKey(s, d, a.call) { OnlyOneInside(s, d, a.call); }
      }
    }
  }

  // When a call on a key has finished, so has every earlier one.
  lemma EarlierWasDone(s: Seeding, c: CallId, d: CallId)
    requires LockInv(s) && c < d && SameKey(s, c, d) && Done(s, d)
    ensures Done(s, c)
  {
    assert SameKey(s, d, c) && CallOk(s, d);
  }

  lemma SuccessKept(s: Seeding, a: Action, c: CallId, d: CallId)
    requires SeedInv(s)
    requires var u := Step(s, a);
      c < d && SameKey(u, c, d) && Succeeded(u, c) && Succeeded(u, d)
    ensures Step(s, a).calls[d].kind == Copy(true)
  {
    var u := Step(s, a);
    if u == s || a.Arrive? {
      assert Succeeded(s, c) && Succeeded(s, d) && SameKey(s, c, d);
    } else {
      StepCases(s, a);
      FilesChange(s, a);
      if a.call == d {
        assert Succeeded(s, c) && SawMissing(s, d);
      } else {
        assert Succeeded(s, d) && SameKey(s, c, d);
        EarlierWasDone(s, c, d);
        assert Succeeded(s, c);
      }
    }
  }

  lemma StepKeepsSeed(s: Seeding, a: Action)
    requires SeedInv(s)
    ensures SeedInv(Step(s, a))
  {
    var u := Step(s, a);
    StepKeepsLock(s, a);
    FilesChange(s, a);
    forall d: CallId | d < |u.calls| ensures SawMissing(u, d) { SawMissingKept(s, a, d); }
    forall c: CallId | Succeeded(u, c) ensures u.calls[c].key in u.files {
      if !a.Arrive? && u != s {
        StepCases(s, a);
        assert c != a.call ==> Succeeded(s, c);
      } else {
        assert Succeeded(s, c);
      }
    }
    forall c: CallId, d: CallId | c < d && SameKey(u, c, d) && Succeeded(u, c) && Succeeded(u, d)
      ensures u.calls[d].kind == Copy(true)
    {
      SuccessKept(s, a, c, d);
    }
  }

  lemma {:induction false} RunKeepsSeed(files: map<Path, Origin>, actions: seq<Action>)
    ensures SeedInv(Run(files, actions))
  {
    if actions != [] {
      RunKeepsSeed(files, actions[..|actions| - 1]);
      StepKeepsSeed(Run(files, actions[..|actions| - 1]), actions[|actions| - 1]);
    }
  }

  // Of two calls on one path that both report a copy, the later was told to
  // overwrite; so among non-overwriting calls at most one succeeds.
  lemma AtMostOneSeeds(files: map<Path, Origin>, actions: seq<Action>, c: CallId, d: CallId)
    requires var s := Run(files, actions);
      && c < d < |s.calls| && s.calls[c].key == s.calls[d].key
      && s.calls[c].pc == Finished(Copied) && s.calls[d].pc == Finished(Copied)
    ensures Run(files, actions).calls[d].kind == Copy(true)
  {
    var s := Run(files, actions);
    RunKeepsSeed(files, actions);
    assert SameKey(s, c, d) && Succeeded(s, c) && Succeeded(s, d);
  }

  // No two copies onto one path, overwriting ones included, are under way at once.
  lemma CopiesNeverOverlap(files: map<Path, Origin>, actions: seq<Action>, c: CallId, d: CallId)
    requires At(Run(files, actions), c, Copying) && At(Run(files, actions), d, Copying)
    requires Run(files, actions).calls[c].key == Run(files, actions).calls[d].key
    ensures c == d
  {
    RunKeepsLock(files, actions);
    OnlyOneInside(Run(files, actions), c, d);
  }

  predicate NeverOverwrites(actions: seq<Action>, key: Path) {
    forall k | 0 <= k < |actions| :: actions[k].Arrive? && actions[k].key == key ==> actions[k].kind != Copy(true)
  }

  lemma {:induction false} RunKinds(files: map<Path, Origin>, actions: seq<Action>, key: Path)
    requires NeverOverwrites(actions, key)
    ensures forall c: CallId | c < |Run(files, actions).calls| && Run(files, actions).calls[c].key == key ::
      Run(files, actions).calls[c].kind != Copy(true)
  {
    if actions != [] {
      var n := |actions| - 1;
      RunKinds(files, actions[..n], key);
      assert actions[n] == actions[|actions| - 1];
    }
  }

  // A file present at the start is the same file after any run of non-overwriting calls.
  lemma {:induction false} PresentFileUntouched(files: map<Path, Origin>, actions: seq<Action>, key: Path)
    requires key in files && NeverOverwrites(actions, key)
    ensures key in Run(files, actions).files && Run(files, actions).files[key] == files[key]
  {
    if actions != [] {
      var n := |actions| - 1;
      var s, a := Run(files, actions[..n]), actions[n];
      PresentFileUntouched(files, actions[..n], key);
      RunKinds(files, actions[..n], key);
      RunKeepsSeed(files, actions[..n]);
      FilesChange(s, a);
      if a.CopyEnds? && At(s, a.call, Copying) {
        assert SawMissing(s, a.call);
      }
    }
  }

  // The module's variables, the suspended calls and the file system they share.
  class Seeder {
    var calls: seq<Call>
    var locks: map<Path, CallId>
    var files: map<Path, Origin>

    ghost function State(): Seeding reads this { Seeding(calls, locks, files) }

    constructor (files: map<Path, Origin>)
      ensures State() == Start(files)
    {
      calls, locks := [], map[];
      this.files := files;
    }

    // withLock up to "await previous".
    method WithLock(key: Path, kind: Kind) returns (c: CallId)
      modifies this
      ensures State() == Step(old(State()), Arrive(key, kind)) && c == |old(calls)|
    {
      var previous := if key in locks then Some(locks[key]) else None;
      c := |calls|;
      calls := calls + [Call(key, kind, previous, false, AwaitingLock)];
      locks := locks[key := c];
    }

    // The finally block.
    method Release(c: CallId, result: Result)
      requires c < |calls|
      modifies this`calls, this`locks
      ensures State() == Leave(old(State()), c, result)
    {
      calls := calls[c := calls[c].(released := true, pc := Finished(result))];
      if calls[c].key in locks && locks[calls[c].key] == c {
        locks := locks - {calls[c].key};
      }
    }

    method Suspend(c: CallId, pc: Pc)
      requires c < |calls|
      modifies this`calls
      ensures State() == Goto(old(State()), c, pc)
    {
      calls := calls[c := calls[c].(pc := pc)];
    }

    method LockObtained(c: CallId)
      requires CanWake(State(), c)
      modifies this
      ensures State() == Step(old(State()), Action.Wake(c))
    {
      if calls[c].kind.Overwrites() {
        Suspend(c, CheckingPrimary);
      } else {
        Suspend(c, CheckingAgent);
      }
    }

    method AgentChecked(c: CallId, failed: bool)
      requires At(State(), c, CheckingAgent)
      modifies this
      ensures State() == Step(old(State()), AgentStat(c, failed))
    {
      if failed {
        Release(c, Warned);
      } else if calls[c].key in files {
        Release(c, Skipped);
      } else {
        Suspend(c, CheckingPrimary);
      }
    }

    method PrimaryChecked(c: CallId, present: Option<bool>)
      requires At(State(), c, CheckingPrimary)
      modifies this
      ensures State() == Step(old(State()), PrimaryStat(c, present))
    {
      match present
      case None => Release(c, Warned);
      case Some(found) =>
        if found {
          Suspend(c, MakingDir);
        } else {
          Release(c, Skipped);
        }
    }

    method DirectoryMade(c: CallId, failed: bool)
      requires At(State(), c, MakingDir)
      modifies this
      ensures State() == Step(old(State()), DirMade(c, failed))
    {
      if failed {
        Release(c, Warned);
      } else {
        Suspend(c, Copying);
      }
    }

    method CopyEnded(c: CallId, outcome: CopyOutcome)
      requires At(State(), c, Copying)
      modifies this
      ensures State() == Step(old(State()), CopyEnds(c, outcome))
    {
      match outcome
      case CopySucceeds =>
        files := files[calls[c].key := CopiedBy(c)];
        Release(c, Copied);
      case CopyFailsUntouched => Release(c, Warned);
      case CopyFailsPartway =>
        files := files[calls[c].key := PartialBy(c)];
        Release(c, Warned);
    }
  }
}
