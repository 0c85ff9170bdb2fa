// Merging persisted history into the transcript: nothing on screen is lost or
// doubled while a run is live, and nothing of the history is lost either.
module ChatHistory {
  import opened Prelude
  import opened ChatTypes
  import opened ChatModel
  import opened ChatScreen

  function Candidates(st: Chat): seq<Message> { SliceFromEnd(st.screen.messages, 6) }

  predicate Merges(st: Chat) { HasLive(st) && st.screen.messages != [] }

  // The history entry stands for a message that is already on screen.
  predicate Matched(st: Chat, e: Entry) {
    Merges(st) && exists k :: 0 <= k < |Candidates(st)| && Matches(Candidates(st)[k], e.message)
  }

  // A user message goes when a confirmed one with the same content is shown.
  predicate Collapsed(ms: seq<Message>, m: Message) { m in ms && Echo(m) && m.body.text in ConfirmedContents(ms) }

  // "id" is shown once, or names an echo that the update collapses.
  ghost predicate ShownOnce(merged: seq<Message>, after: seq<Message>, id: Id) {
    || (exists k :: 0 <= k < |after| && after[k].id == id && forall j | 0 <= j < |after| && j != k :: after[j].id != id)
    || (exists m :: Collapsed(merged, m) && m.id == id && id !in Ids(after))
  }

  lemma IdsOfDistinct(after: seq<Message>, id: Id)
    requires Distinct(after) && id in Ids(after)
    ensures exists k :: 0 <= k < |after| && after[k].id == id
                     && forall j | 0 <= j < |after| && j != k :: after[j].id != id
  {
    var m :| m in after && m.id == id;
    var k :| 0 <= k < |after| && after[k] == m;
    assert forall j | 0 <= j < |after| && j != k :: after[j].id != id;
  }

  lemma ShownOrCollapsed(ms: seq<Message>, id: Id)
    requires id in Ids(Dedupe(ms))
    ensures ShownOnce(Dedupe(ms), Collapse(Dedupe(ms)), id)
  {
    var merged := Dedupe(ms);
    var after := Collapse(merged);
    DedupeDistinct(ms);
    DropEchoesMembers(merged, ConfirmedContents(merged));
    var m :| m in merged && m.id == id;
    if m in after {
      IdsOfDistinct(after, id);
    } else {
      assert Collapsed(merged, m);
      forall x | x in after ensures x.id != id {
        if x.id == id { SameIdSame(merged, m, x); }
      }
    }
  }

  // ---- what the merge keeps and replaces ----

  lemma {:induction false} UnmatchedKept(candidates: seq<Message>, history: seq<Entry>, e: Entry)
    requires e in history && FirstMatch(candidates, e.message).None?
    ensures e.message in MergeHistory(candidates, history).kept
  {
    var n := |history| - 1;
    assert history == history[..n] + [history[n]];
    if e in history[..n] { UnmatchedKept(candidates, history[..n], e); }
  }

  lemma {:induction false} KeptUnmatched(candidates: seq<Message>, history: seq<Entry>, m: Message)
    requires m in MergeHistory(candidates, history).kept
    ensures exists e :: e in history && e.message == m && FirstMatch(candidates, m).None?
  {
    var n := |history| - 1;
    assert history == history[..n] + [history[n]];
    if m in MergeHistory(candidates, history[..n]).kept {
      KeptUnmatched(candidates, history[..n], m);
      var e :| e in history[..n] && e.message == m;
      assert e in history;
    } else {
      assert history[n] in history && history[n].message == m;
    }
  }

  // Entry k is the last one matched to the message with this id.
  predicate LastMatch(candidates: seq<Message>, history: seq<Entry>, k: nat, id: Id) {
    && k < |history| && FirstMatch(candidates, history[k].message).Some?
    && FirstMatch(candidates, history[k].message).value.id == id
    && forall j | k < j < |history| && FirstMatch(candidates, history[j].message).Some? ::
         FirstMatch(candidates, history[j].message).value.id != id
  }

  // A message on screen is rewritten exactly when an entry matches it, and then it
  // shows what the last such entry says, under its own id.
  lemma {:induction false} ReplacedByLastMatch(candidates: seq<Message>, history: seq<Entry>, k: nat, id: Id)
    requires LastMatch(candidates, history, k, id)
    ensures var g := MergeHistory(candidates, history);
      && id in g.replacements
      && g.replacements[id] == Overlay(FirstMatch(candidates, history[k].message).value, history[k])
      && g.replacements[id].id == id && !g.replacements[id].optimistic
      && g.replacements[id].role == history[k].message.role
      && g.replacements[id].body.text == history[k].message.body.text
      && g.replacements[id].body.segments == history[k].message.body.segments
  {
    var n := |history| - 1;
    if k < n {
      assert LastMatch(candidates, history[..n], k, id) by {
        assert forall j | 0 <= j < n :: history[..n][j] == history[j];
      }
      ReplacedByLastMatch(candidates, history[..n], k, id);
    }
  }

  lemma {:induction false} ReplacedOnlyByMatch(candidates: seq<Message>, history: seq<Entry>, id: Id)
    requires id in MergeHistory(candidates, history).replacements
    ensures exists k :: LastMatch(candidates, history, k, id)
  {
    var n := |history| - 1;
    var found := FirstMatch(candidates, history[n].message);
    if found.Some? && found.value.id == id {
      assert LastMatch(candidates, history, n, id);
    } else {
      ReplacedOnlyByMatch(candidates, history[..n], id);
      var k :| LastMatch(candidates, history[..n], k, id);
      assert forall j | 0 <= j < n :: history[..n][j] == history[j];
      assert LastMatch(candidates, history, k, id);
    }
  }

  lemma MatchedIffFound(st: Chat, e: Entry)
    ensures Matched(st, e) <==> Merges(st) && FirstMatch(Candidates(st), e.message).Some?
  {
    var found := FirstMatch(Candidates(st), e.message);
    if found.Some? {
      var k :| 0 <= k < |Candidates(st)| && Candidates(st)[k] == found.value;
    }
  }

  // ---- while a run is live ----

  lemma ReplacedIds(ms: seq<Message>, replacements: map<Id, Message>)
    requires forall id | id in replacements :: replacements[id].id == id
    ensures Ids(Replace(ms, replacements)) == Ids(ms)
  {
    var replaced := Replace(ms, replacements);
    forall m | m in ms ensures m.id in Ids(replaced) {
      var k :| 0 <= k < |ms| && ms[k] == m;
      assert replaced[k] in replaced && replaced[k].id == m.id;
    }
    forall m | m in replaced ensures m.id in Ids(ms) {
      var k :| 0 <= k < |ms| && replaced[k] == m;
      assert ms[k] in ms;
    }
  }

  lemma MergedIds(st: Chat, history: seq<Entry>, mode: Mode)
    requires Distinct(st.screen.messages) && (HasLive(st) || mode.PrependMode?)
    ensures Ids(MergedMessages(st, history, mode)) == Ids(MergeFor(st, history).kept) + Ids(st.screen.messages)
  {
    var ms, g := st.screen.messages, MergeFor(st, history);
    MergeHistoryOk(Candidates(st), history);
    var replaced := Replace(ms, g.replacements);
    ReplacedIds(ms, g.replacements);
    DedupeDistinct(g.kept + replaced);
    assert Ids(g.kept + replaced) == Ids(g.kept) + Ids(replaced);
  }

  // While something is live (or history is prepended) every id on screen is there
  // exactly once afterwards, unless its message is a collapsed echo.
  lemma OnScreenKept(st: Chat, conversation: string, history: seq<Entry>, mode: Mode, m: Message)
    requires Distinct(st.screen.messages) && (HasLive(st) || mode.PrependMode?) && m in st.screen.messages
    ensures ShownOnce(MergedMessages(st, history, mode),
        HydrateHistory(st, conversation, history, mode).screen.messages, m.id)
  {
    MergedIds(st, history, mode);
    MergedOnce(st, conversation, history, mode, m.id);
  }

  lemma MergedOnce(st: Chat, conversation: string, history: seq<Entry>, mode: Mode, id: Id)
    requires id in Ids(MergedMessages(st, history, mode))
    ensures ShownOnce(MergedMessages(st, history, mode),
        HydrateHistory(st, conversation, history, mode).screen.messages, id)
  {
    var g := MergeFor(st, history);
    ShownOrCollapsed(
      if mode.PrependMode? || HasLive(st) then g.kept + Replace(st.screen.messages, g.replacements) else g.kept, id);
  }

  // Every history entry is shown by its id (or collapsed), unless it matches one of
  // the last six messages on screen; that one has its role and is shown instead.
  lemma EntryShownOrMatched(st: Chat, conversation: string, history: seq<Entry>, mode: Mode, e: Entry)
    requires Distinct(st.screen.messages) && e in history
    ensures var after := HydrateHistory(st, conversation, history, mode).screen.messages;
      var merged := MergedMessages(st, history, mode);
      if Matched(st, e) then
        exists m :: m in Candidates(st) && m.role == e.message.role && Matches(m, e.message)
            && ShownOnce(merged, after, m.id)
      else ShownOnce(merged, after, e.message.id)
  {
    MatchedIffFound(st, e);
    if Matched(st, e) {
      var m := FirstMatch(Candidates(st), e.message).value;
      OnScreenKept(st, conversation, history, mode, m);
    } else {
      UnmatchedIsMerged(st, history, mode, e);
      MergedOnce(st, conversation, history, mode, e.message.id);
    }
  }

  lemma UnmatchedIsMerged(st: Chat, history: seq<Entry>, mode: Mode, e: Entry)
    requires e in history && !Matched(st, e)
    ensures e.message.id in Ids(MergedMessages(st, history, mode))
  {
    var g := MergeFor(st, history);
    MatchedIffFound(st, e);
    if Merges(st) {
      UnmatchedKept(Candidates(st), history, e);
    } else {
      var k :| 0 <= k < |history| && history[k] == e;
      assert EntryMessages(history)[k] == e.message;
    }
    assert e.message in g.kept;
    var all := g.kept + Replace(st.screen.messages, g.replacements);
    assert e.message in all;
    DedupeDistinct(all);
    DedupeDistinct(g.kept);
  }

  // ---- when nothing is live ----

  // In replace mode the screen then depends on the history alone.
  lemma HistoryDecides(st: Chat, conversation: string, history: seq<Entry>)
    requires ChatScreenInv(st) && !HasLive(st)
    ensures HydrateHistory(st, conversation, history, ReplaceMode).screen
         == Screen(Collapse(Dedupe(EntryMessages(history))), {}, map[])
  {
    var shown := HydrateHistory(st, conversation, history, ReplaceMode).screen;
    assert st.screen.tracked == {} && st.screen.trackedBy == map[];
    assert shown.trackedBy == map[];
  }

  // Hydrating finished history again changes nothing.
  lemma HydrateTwice(st: Chat, conversation: string, history: seq<Entry>)
    requires ChatScreenInv(st) && !HasLive(st) && forall e | e in history :: !LiveMessage(e.message)
    ensures var once := HydrateHistory(st, conversation, history, ReplaceMode);
      HydrateHistory(once, conversation, history, ReplaceMode) == once
  {
    var once := HydrateHistory(st, conversation, history, ReplaceMode);
    HistoryDecides(st, conversation, history);
    var ms := EntryMessages(history);
    DedupeDistinct(ms);
    CollapseClears(Dedupe(ms));
    forall m | m in once.screen.messages ensures !LiveMessage(m) {
      var k :| 0 <= k < |ms| && ms[k] == m;
      assert history[k] in history;
    }
    assert !HasLive(once);
    var twice := HydrateHistory(once, conversation, history, ReplaceMode);
    assert twice.screen.trackedBy == map[];
  }
}
