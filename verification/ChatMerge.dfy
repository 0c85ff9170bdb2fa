// What a hydration does to each message, to what is tracked and to the run, told in
// terms of the messages on screen and the entries of the history.
module ChatMerge {
  import opened Prelude
  import opened ChatTypes
  import opened ChatModel
  import opened ChatScreen
  import opened ChatHistory

  // ---- when something is live, and what matches ----

  // Something is live: a run is streaming, being sent or current, a message is tracked,
  // or one on screen is processing or optimistic.
  lemma LiveMeans(st: Chat)
    ensures HasLive(st) <==>
      || st.cursor.streaming || st.cursor.status == Sending || st.cursor.inflight != None || st.screen.tracked != {}
      || exists m :: m in st.screen.messages && (m.streamStatus == Some(Processing) || m.optimistic)
  {
    if m :| m in st.screen.messages && (m.streamStatus == Some(Processing) || m.optimistic) {
      var k :| 0 <= k < |st.screen.messages| && st.screen.messages[k] == m;
      assert LiveMessage(st.screen.messages[k]);
    }
  }

  predicate IsProcessing(m: Message) { m.streamStatus == Some(Processing) }

  // The entry stands for the message: they have the same role and not both no text; the
  // texts are the same, and the message is optimistic, or dated within half an hour of
  // the entry, or processing; or the entry's text goes on where the text of the
  // processing message ends.
  predicate StandsFor(entry: Message, m: Message) {
    && entry.role == m.role && entry.body.text + m.body.text != ""
    && (if entry.body.text == m.body.text then
          || m.optimistic || IsProcessing(m)
          || (entry.createdAt.ms.Some? && m.createdAt.ms.Some?
              && -1800000 <= entry.createdAt.ms.value - m.createdAt.ms.value <= 1800000)
        else IsProcessing(m) && m.body.text != "" && m.body.text <= entry.body.text)
  }

  lemma MatchMeans(m: Message, entry: Message)
    ensures Matches(m, entry) <==> StandsFor(entry, m)
  {
    assert |entry.body.text + m.body.text| == |entry.body.text| + |m.body.text|;
  }

  // The entry's message on screen: the first of the last six that it stands for.
  predicate MatchedAt(ms: seq<Message>, entry: Message, k: nat) {
    && k < |ms| && |ms| - 6 <= k && StandsFor(entry, ms[k])
    && forall j | 0 <= j < k && |ms| - 6 <= j :: !StandsFor(entry, ms[j])
  }

  lemma {:induction false} FirstMatchIsFirst(candidates: seq<Message>, entry: Message) returns (k: nat)
    requires FirstMatch(candidates, entry).Some?
    ensures k < |candidates| && FirstMatch(candidates, entry) == Some(candidates[k]) && Matches(candidates[k], entry)
    ensures forall j | 0 <= j < k :: !Matches(candidates[j], entry)
  {
    if Matches(candidates[0], entry) {
      k := 0;
    } else {
      var i := FirstMatchIsFirst(candidates[1..], entry);
      assert forall j | 1 <= j < i + 1 :: candidates[j] == candidates[1..][j - 1];
      k := i + 1;
    }
  }

  lemma MatchFound(ms: seq<Message>, entry: Message, k: nat)
    requires MatchedAt(ms, entry, k)
    ensures FirstMatch(SliceFromEnd(ms, 6), entry) == Some(ms[k])
  {
    var candidates := SliceFromEnd(ms, 6);
    var from := |ms| - |candidates|;
    assert candidates == ms[from..];
    MatchMeans(ms[k], entry);
    assert candidates[k - from] == ms[k];
    var i := FirstMatchIsFirst(candidates, entry);
    assert candidates[i] == ms[from + i];
    MatchMeans(ms[from + i], entry);
  }

  lemma FoundMatch(ms: seq<Message>, entry: Message) returns (k: nat)
    requires FirstMatch(SliceFromEnd(ms, 6), entry).Some?
    ensures MatchedAt(ms, entry, k) && FirstMatch(SliceFromEnd(ms, 6), entry) == Some(ms[k])
  {
    var candidates := SliceFromEnd(ms, 6);
    var from := |ms| - |candidates|;
    assert candidates == ms[from..];
    var i := FirstMatchIsFirst(candidates, entry);
    k := from + i;
    assert candidates[i] == ms[k];
    MatchMeans(ms[k], entry);
    forall j | 0 <= j < k && |ms| - 6 <= j ensures !StandsFor(entry, ms[j]) {
      assert candidates[j - from] == ms[j];
      MatchMeans(ms[j], entry);
    }
  }

  // ---- what becomes of a matched message ----

  // The two messages agree on this optional field.
  predicate SameField(f: Field, a: Message, b: Message) {
    match f
    case ThinkField => a.body.think == b.body.think
    case ToolsField => a.body.tools == b.body.tools
    case WarningsField => a.body.warnings == b.body.warnings
    case CitationsField => a.body.citations == b.body.citations
    case StatusField => a.streamStatus == b.streamStatus
    case CreatedAtField => a.createdAt == b.createdAt
    case CommandField => a.command == b.command
    case KindField => a.kind == b.kind
    case UsageField => a.usage == b.usage
    case TimingField => a.timing == b.timing
  }

  // Confirmed under its own id, with the entry's role, text and segments, and every other
  // field from the entry if it carries it and as it was if not.
  ghost predicate Overlaid(was: Message, e: Entry, now: Message) {
    && now.id == was.id && !now.optimistic && now.role == e.message.role
    && now.body.text == e.message.body.text && now.body.segments == e.message.body.segments
    && forall f: Field :: SameField(f, now, if f in e.present then e.message else was)
  }

  lemma OverlayMeans(m: Message, e: Entry)
    ensures Overlaid(m, e, Overlay(m, e))
  {
  }

  // Entry k is the last one that stands for the message at i.
  ghost predicate LastFor(ms: seq<Message>, history: seq<Entry>, k: nat, i: nat) {
    && k < |history| && MatchedAt(ms, history[k].message, i)
    && forall j | k < j < |history| :: !MatchedAt(ms, history[j].message, i)
  }

  predicate MergesHistory(st: Chat) { HasLive(st) && st.screen.messages != [] }

  // No entry that stands for nothing on screen carries this id.
  ghost predicate NotTaken(st: Chat, history: seq<Entry>, id: Id) {
    forall e | e in history && e.message.id == id :: exists k: nat :: MatchedAt(st.screen.messages, e.message, k)
  }

  lemma KeptStandsForNothing(st: Chat, history: seq<Entry>, id: Id)
    requires MergesHistory(st) && NotTaken(st, history, id)
    ensures id !in Ids(MergeFor(st, history).kept)
  {
    forall m | m in MergeFor(st, history).kept ensures m.id != id {
      KeptUnmatched(Candidates(st), history, m);
      var e :| e in history && e.message == m && FirstMatch(Candidates(st), m).None?;
      if k: nat :| MatchedAt(st.screen.messages, e.message, k) { MatchFound(st.screen.messages, e.message, k); }
    }
  }

  // Where something is live, a message on screen whose id no unmatched entry takes shows
  // the last entry that stands for it, and otherwise stays as it is.
  lemma MatchedIsOverlaid(st: Chat, history: seq<Entry>, mode: Mode, i: nat, k: nat)
    requires ChatScreenInv(st) && MergesHistory(st) && i < |st.screen.messages|
    requires NotTaken(st, history, st.screen.messages[i].id) && LastFor(st.screen.messages, history, k, i)
    ensures exists m :: m in MergedMessages(st, history, mode) && Overlaid(st.screen.messages[i], history[k], m)
  {
    var ms, g := st.screen.messages, MergeFor(st, history);
    MatchFound(ms, history[k].message, i);
    forall j | k < j < |history| && FirstMatch(Candidates(st), history[j].message).Some?
      ensures FirstMatch(Candidates(st), history[j].message).value.id != ms[i].id
    {
      var x := FoundMatch(ms, history[j].message);
    }
    assert LastMatch(Candidates(st), history, k, ms[i].id);
    ReplacedByLastMatch(Candidates(st), history, k, ms[i].id);
    OverlayMeans(ms[i], history[k]);
    KeptStandsForNothing(st, history, ms[i].id);
    ReplacedIsMerged(st, history, mode, i);
  }

  lemma {:induction false} RestIsKept(kept: seq<Message>, rest: seq<Message>, i: nat)
    requires Distinct(rest) && i < |rest| && rest[i].id !in Ids(kept)
    ensures rest[i] in Dedupe(kept + rest)
  {
    var all := kept + rest;
    forall j | 0 <= j < |kept| ensures all[j].id != rest[i].id { assert kept[j].id in Ids(kept); }
    assert all[|kept| + i] == rest[i] && FirstOfId(all, |kept| + i);
    DedupeFirsts(all, |kept| + i);
  }

  lemma ReplacedDistinct(ms: seq<Message>, candidates: seq<Message>, g: Merge)
    requires Distinct(ms) && MergeOk(g, candidates)
    ensures Distinct(Replace(ms, g.replacements))
    ensures forall i | 0 <= i < |ms| :: Replace(ms, g.replacements)[i].id == ms[i].id
  {
  }

  lemma ReplacedIsMerged(st: Chat, history: seq<Entry>, mode: Mode, i: nat)
    requires Distinct(st.screen.messages) && MergesHistory(st) && i < |st.screen.messages|
    requires st.screen.messages[i].id !in Ids(MergeFor(st, history).kept)
    ensures Replace(st.screen.messages, MergeFor(st, history).replacements)[i] in MergedMessages(st, history, mode)
  {
    var ms, g := st.screen.messages, MergeFor(st, history);
    MergeHistoryOk(Candidates(st), history);
    ReplacedDistinct(ms, Candidates(st), g);
    RestIsKept(g.kept, Replace(ms, g.replacements), i);
  }

  lemma ReplacementHasEntry(ms: seq<Message>, history: seq<Entry>, i: nat)
    requires Distinct(ms) && i < |ms| && ms[i].id in MergeHistory(SliceFromEnd(ms, 6), history).replacements
    ensures exists e :: e in history && MatchedAt(ms, e.message, i)
  {
    ReplacedOnlyByMatch(SliceFromEnd(ms, 6), history, ms[i].id);
    var k: nat :| LastMatch(SliceFromEnd(ms, 6), history, k, ms[i].id);
    var x := FoundMatch(ms, history[k].message);
    assert x == i && history[k] in history;
  }

  lemma UnmatchedStays(st: Chat, history: seq<Entry>, mode: Mode, i: nat)
    requires ChatScreenInv(st) && MergesHistory(st) && i < |st.screen.messages|
    requires NotTaken(st, history, st.screen.messages[i].id)
    requires forall e | e in history :: !MatchedAt(st.screen.messages, e.message, i)
    ensures st.screen.messages[i] in MergedMessages(st, history, mode)
  {
    var ms, g := st.screen.messages, MergeFor(st, history);
    KeptStandsForNothing(st, history, ms[i].id);
    if ms[i].id in g.replacements { ReplacementHasEntry(ms, history, i); }
    ReplacedIsMerged(st, history, mode, i);
  }

  // The first unmatched entry of an id is shown as it is.
  lemma UnmatchedIsShown(st: Chat, history: seq<Entry>, mode: Mode, k: nat)
    requires ChatScreenInv(st) && k < |MergeFor(st, history).kept| && FirstOfId(MergeFor(st, history).kept, k)
    ensures MergeFor(st, history).kept[k] in MergedMessages(st, history, mode)
  {
    var g := MergeFor(st, history);
    var all := g.kept + Replace(st.screen.messages, g.replacements);
    assert forall j | 0 <= j <= k :: all[j] == g.kept[j];
    DedupeFirsts(all, k);
    DedupeFirsts(g.kept, k);
  }

  lemma {:induction false} DedupeInOrder(ms: seq<Message>)
    ensures Subsequence(Dedupe(ms), ms)
  {
    if ms != [] {
      var init := ms[..|ms| - 1];
      DedupeInOrder(init);
      SubsequenceSnoc(Dedupe(init), init, ms[|ms| - 1]);
      assert ms == init + [ms[|ms| - 1]];
    }
  }

  // The unmatched entries come first, in their order, and then what was on screen, in
  // its order; in replace mode with nothing live only the entries.
  lemma HistoryComesFirst(st: Chat, history: seq<Entry>, mode: Mode)
    ensures var g := MergeFor(st, history);
      Subsequence(MergedMessages(st, history, mode),
        if mode.PrependMode? || HasLive(st) then g.kept + Replace(st.screen.messages, g.replacements) else g.kept)
    ensures MergesHistory(st) ==> Subsequence(MergeFor(st, history).kept, EntryMessages(history))
    ensures !MergesHistory(st) ==> MergeFor(st, history).kept == EntryMessages(history)
  {
    var g := MergeFor(st, history);
    DedupeInOrder(
      if mode.PrependMode? || HasLive(st) then g.kept + Replace(st.screen.messages, g.replacements) else g.kept);
    if MergesHistory(st) { KeptInOrder(Candidates(st), history); }
  }

  lemma {:induction false} KeptInOrder(candidates: seq<Message>, history: seq<Entry>)
    ensures Subsequence(MergeHistory(candidates, history).kept, EntryMessages(history))
  {
    if history != [] {
      var n := |history| - 1;
      KeptInOrder(candidates, history[..n]);
      assert EntryMessages(history) == EntryMessages(history[..n]) + [history[n].message];
      SubsequenceSnoc(MergeHistory(candidates, history[..n]).kept, EntryMessages(history[..n]), history[n].message);
    }
  }

  // ---- what becomes of the run and of tracking ----

  lemma MatchKnown(ms: seq<Message>, entry: Message)
    ensures FirstMatch(SliceFromEnd(ms, 6), entry).Some? <==> exists k: nat :: MatchedAt(ms, entry, k)
    ensures forall k: nat | MatchedAt(ms, entry, k) :: FirstMatch(SliceFromEnd(ms, 6), entry) == Some(ms[k])
  {
    forall k: nat | MatchedAt(ms, entry, k) ensures FirstMatch(SliceFromEnd(ms, 6), entry) == Some(ms[k]) {
      MatchFound(ms, entry, k);
    }
    if FirstMatch(SliceFromEnd(ms, 6), entry).Some? { var k := FoundMatch(ms, entry); }
  }

  // An entry that is no longer processing stands for a message that is.
  ghost predicate EndsLive(ms: seq<Message>, e: Entry) {
    && e.message.streamStatus.Some? && !IsProcessing(e.message)
    && exists k: nat :: MatchedAt(ms, e.message, k) && IsProcessing(ms[k])
  }

  lemma EndsLiveIff(ms: seq<Message>, e: Entry)
    ensures var found := FirstMatch(SliceFromEnd(ms, 6), e.message);
      EndsLive(ms, e) <==>
        && found.Some? && IsProcessing(found.value) && e.message.streamStatus.Some? && !IsProcessing(e.message)
  {
    MatchKnown(ms, e.message);
  }

  lemma {:induction false} ResetMeans(ms: seq<Message>, history: seq<Entry>)
    ensures MergeHistory(SliceFromEnd(ms, 6), history).reset <==> exists e :: e in history && EndsLive(ms, e)
  {
    if history != [] {
      var init, last := history[..|history| - 1], history[|history| - 1];
      assert forall e :: e in history <==> e in init || e == last;
      ResetMeans(ms, init);
      EndsLiveIff(ms, last);
      assert MergeHistory(SliceFromEnd(ms, 6), history).reset
         <==> MergeHistory(SliceFromEnd(ms, 6), init).reset || EndsLive(ms, last);
    }
  }

  // The run is forgotten exactly if a finished entry stands for a live message; the
  // mappings are, with another conversation, and the live ones when nothing is live.
  lemma HydrationEndsRun(st: Chat, conversation: string, history: seq<Entry>, mode: Mode)
    ensures var after := Next(st, History(conversation, history, mode));
      && after.conversation == conversation && after.nextId == st.nextId
      && (if MergesHistory(st) && exists e :: e in history && EndsLive(st.screen.messages, e)
          then
            && after.cursor == Cursor(None, 0, None, Idle, false, None, None)
            && after.live == Body("", "", [], [], [], [])
          else after.cursor == st.cursor && after.live == st.live)
      && after.index == if conversation != st.conversation then Index(map[], map[], {}, {})
                        else if HasLive(st) then st.index else st.index.(assistantOf := map[])
  {
    ResetMeans(st.screen.messages, history);
  }

  // The entry stands for the optimistic message with this id.
  ghost predicate Untracks(ms: seq<Message>, e: Entry, id: Id) {
    exists k: nat :: MatchedAt(ms, e.message, k) && ms[k].optimistic && ms[k].id == id
  }

  lemma UntracksIff(ms: seq<Message>, e: Entry, id: Id)
    ensures var found := FirstMatch(SliceFromEnd(ms, 6), e.message);
      Untracks(ms, e, id) <==> found.Some? && found.value.optimistic && found.value.id == id
  {
    MatchKnown(ms, e.message);
  }

  lemma {:induction false} UntrackedMeans(ms: seq<Message>, history: seq<Entry>, id: Id)
    ensures id in MergeHistory(SliceFromEnd(ms, 6), history).untracked <==>
      exists e :: e in history && Untracks(ms, e, id)
  {
    if history != [] {
      var init, last := history[..|history| - 1], history[|history| - 1];
      assert forall e :: e in history <==> e in init || e == last;
      UntrackedMeans(ms, init, id);
      UntracksIff(ms, last, id);
      assert id in MergeHistory(SliceFromEnd(ms, 6), history).untracked
         <==> id in MergeHistory(SliceFromEnd(ms, 6), init).untracked || Untracks(ms, last, id);
    }
  }

  // A message stays tracked exactly if it is still on screen and no entry stands for it.
  lemma HydrationUntracks(st: Chat, conversation: string, history: seq<Entry>, mode: Mode, id: Id)
    requires MergesHistory(st)
    ensures var after := Next(st, History(conversation, history, mode)).screen;
      id in after.tracked <==>
        && id in st.screen.tracked && (exists m :: m in after.messages && m.id == id)
        && !exists e :: e in history && Untracks(st.screen.messages, e, id)
  {
    UntrackedMeans(st.screen.messages, history, id);
    HydratedTracks(st, conversation, history, mode, id);
  }

  lemma HydratedTracks(st: Chat, conversation: string, history: seq<Entry>, mode: Mode, id: Id)
    ensures var after := Next(st, History(conversation, history, mode)).screen;
      id in after.tracked <==>
        && id in st.screen.tracked && (exists m :: m in after.messages && m.id == id)
        && id !in MergeFor(st, history).untracked
  {
    var s := UntrackAll(st.screen, MergeFor(st, history).untracked);
    ShowTracks(s, MergedMessages(st, history, mode));
    assert Next(st, History(conversation, history, mode)).screen == Show(s, MergedMessages(st, history, mode));
  }
}
