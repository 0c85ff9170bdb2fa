// client/src/hooks/useChatWs.ts, onmessage: messages whose sequence number does
// not exceed the last one seen for their key are dropped.
module SequenceFilter {
  import opened Prelude

  // "conversation" and "inflight" are None when the message has no such string.
  datatype Message<T> = Message(
    sidebar: bool, seqNo: Option<int>, conversation: Option<string>, inflight: Option<string>, payload: T)

  type LastSeen = map<string, int>

  function KeyOf<T>(m: Message<T>): string {
    if m.sidebar then "sidebar"
    else if m.conversation.Some? && m.conversation.value != "" && m.inflight.Some? && m.inflight.value != ""
    then m.conversation.value + ":" + m.inflight.value
    else if m.conversation.Some? then m.conversation.value
    else "unknown"
  }

  // Messages without a number, or without a key, are never dropped.
  predicate Sequenced<T>(m: Message<T>) { m.seqNo.Some? && KeyOf(m) != "unknown" }

  function Last(last: LastSeen, key: string): int { if key in last then last[key] else 0 }

  predicate Accepts<T>(last: LastSeen, m: Message<T>) {
    Sequenced(m) ==> m.seqNo.value > Last(last, KeyOf(m))
  }

  function Remember<T>(last: LastSeen, m: Message<T>): LastSeen {
    if Sequenced(m) && Accepts(last, m) then last[KeyOf(m) := m.seqNo.value] else last
  }

  function LastAfter<T>(last: LastSeen, ms: seq<Message<T>>): LastSeen {
    if ms == [] then last
    else Remember(LastAfter(last, ms[..|ms| - 1]), ms[|ms| - 1])
  }

  // The messages that are passed on.
  function Forwarded<T>(last: LastSeen, ms: seq<Message<T>>): seq<Message<T>> {
    if ms == [] then []
    else
      var init, m := ms[..|ms| - 1], ms[|ms| - 1];
      if Accepts(LastAfter(last, init), m) then Forwarded(last, init) + [m] else Forwarded(last, init)
  }

  // ---- keys ----

  lemma JoinsApart(a: string, i: string, b: string, j: string)
    requires ':' !in a && ':' !in b && a + ":" + i == b + ":" + j
    ensures a == b && i == j
  {
    var k := a + ":" + i;
    assert k[|a|] == ':' && k[|b|] == ':';
    assert forall x | 0 <= x < |a| :: k[x] == a[x];
    assert forall x | 0 <= x < |b| :: k[x] == b[x];
    assert |a| == |b|;
    assert a == k[..|a|] && b == k[..|b|];
    assert i == k[|a| + 1..] && j == k[|b| + 1..];
  }

  // The run a message belongs to, if it names one.
  function RunOf<T>(m: Message<T>): Option<string> {
    if m.conversation.Some? && m.conversation.value != "" && m.inflight != Some("") then m.inflight else None
  }

  // An id that no key can be mistaken for.
  predicate PlainId(id: Option<string>) {
    id.Some? ==> ':' !in id.value && id.value != "sidebar" && id.value != "unknown"
  }

  // Which messages are compared: sidebar messages with each other, and others with those
  // of their conversation and run; a run's messages not with the conversation's own.
  lemma ComparedExactly<T>(a: Message<T>, b: Message<T>)
    requires PlainId(a.conversation) && PlainId(b.conversation)
    ensures KeyOf(a) == KeyOf(b)
       <==> a.sidebar == b.sidebar && (a.sidebar || (a.conversation == b.conversation && RunOf(a) == RunOf(b)))
  {
    KeyShape(a);
    KeyShape(b);
    if RunOf(a).Some? && RunOf(b).Some? && !a.sidebar && !b.sidebar && KeyOf(a) == KeyOf(b) {
      JoinsApart(a.conversation.value, a.inflight.value, b.conversation.value, b.inflight.value);
    }
  }

  lemma KeyShape<T>(m: Message<T>)
    requires PlainId(m.conversation)
    ensures ':' in KeyOf(m) <==> !m.sidebar && RunOf(m).Some?
    ensures Sequenced(m) <==> m.seqNo.Some? && (m.sidebar || m.conversation.Some?)
  {
    if !m.sidebar && RunOf(m).Some? { assert KeyOf(m)[|m.conversation.value|] == ':'; }
    assert "unknown" == ['u', 'n', 'k', 'n', 'o', 'w', 'n'];
  }

  // With nothing remembered a message is passed on exactly if it has no number, no key,
  // or a positive number.
  lemma FirstIsPositive<T>(m: Message<T>)
    requires PlainId(m.conversation)
    ensures Accepts(map[], m)
       <==> m.seqNo.None? || m.seqNo.value > 0 || (!m.sidebar && m.conversation.None?)
  {
    KeyShape(m);
  }

  // ---- the running maximum ----

  // Message k beats everything that was sequenced under its key before.
  ghost predicate IsRecord<T>(last: LastSeen, ms: seq<Message<T>>, k: nat)
    requires k < |ms| && Sequenced(ms[k])
  {
    && ms[k].seqNo.value > Last(last, KeyOf(ms[k]))
    && forall j | 0 <= j < k && Sequenced(ms[j]) && KeyOf(ms[j]) == KeyOf(ms[k]) ::
         ms[j].seqNo.value < ms[k].seqNo.value
  }

  lemma {:induction false} LastGrows<T>(last: LastSeen, ms: seq<Message<T>>, key: string)
    ensures Last(LastAfter(last, ms), key) >= Last(last, key)
  {
    if ms != [] { LastGrows(last, ms[..|ms| - 1], key); }
  }

  // Nothing seen under a key exceeds what is remembered for it, dropped messages included.
  lemma {:induction false} LastBounds<T>(last: LastSeen, ms: seq<Message<T>>, j: nat)
    requires j < |ms| && Sequenced(ms[j])
    ensures ms[j].seqNo.value <= Last(LastAfter(last, ms), KeyOf(ms[j]))
  {
    var n := |ms| - 1;
    if j < n { LastBounds(last, ms[..n], j); }
  }

  lemma LastIsBound<T>(last: LastSeen, ms: seq<Message<T>>, key: string)
    ensures Last(LastAfter(last, ms), key) >= Last(last, key)
    ensures forall j | 0 <= j < |ms| && Sequenced(ms[j]) && KeyOf(ms[j]) == key ::
      ms[j].seqNo.value <= Last(LastAfter(last, ms), key)
  {
    LastGrows(last, ms, key);
    forall j | 0 <= j < |ms| && Sequenced(ms[j]) && KeyOf(ms[j]) == key
      ensures ms[j].seqNo.value <= Last(LastAfter(last, ms), key)
    {
      LastBounds(last, ms, j);
    }
  }

  ghost predicate SeenUnder<T>(ms: seq<Message<T>>, key: string, number: int) {
    exists j :: 0 <= j < |ms| && Sequenced(ms[j]) && KeyOf(ms[j]) == key && ms[j].seqNo.value == number
  }

  // And it is one of those numbers, or the start value.
  lemma {:induction false} LastIsSeen<T>(last: LastSeen, ms: seq<Message<T>>, key: string)
    ensures Last(LastAfter(last, ms), key) == Last(last, key) || SeenUnder(ms, key, Last(LastAfter(last, ms), key))
  {
    if ms != [] {
      var init := ms[..|ms| - 1];
      LastIsSeen(last, init, key);
      var number := Last(LastAfter(last, init), key);
      if SeenUnder(init, key, number) {
        var j :| 0 <= j < |init| && Sequenced(init[j]) && KeyOf(init[j]) == key && init[j].seqNo.value == number;
        assert ms[j] == init[j];
      }
    }
  }

  // So it is the largest number seen under the key, if larger than at the start.
  lemma LastIsMaximum<T>(last: LastSeen, ms: seq<Message<T>>, key: string)
    ensures var number := Last(LastAfter(last, ms), key);
      && number >= Last(last, key) && (number == Last(last, key) || SeenUnder(ms, key, number))
      && forall j | 0 <= j < |ms| && Sequenced(ms[j]) && KeyOf(ms[j]) == key :: ms[j].seqNo.value <= number
  {
    LastIsBound(last, ms, key);
    LastIsSeen(last, ms, key);
  }

  lemma RecordIsAccepted<T>(last: LastSeen, ms: seq<Message<T>>, k: nat)
    requires k < |ms| && Sequenced(ms[k]) && IsRecord(last, ms, k)
    ensures Accepts(LastAfter(last, ms[..k]), ms[k])
  {
    var init, key := ms[..k], KeyOf(ms[k]);
    LastIsSeen(last, init, key);
    var number := Last(LastAfter(last, init), key);
    if SeenUnder(init, key, number) {
      var j :| 0 <= j < |init| && Sequenced(init[j]) && KeyOf(init[j]) == key && init[j].seqNo.value == number;
      assert ms[j] == init[j];
    }
  }

  lemma AcceptedIsRecord<T>(last: LastSeen, ms: seq<Message<T>>, k: nat)
    requires k < |ms| && Sequenced(ms[k]) && Accepts(LastAfter(last, ms[..k]), ms[k])
    ensures IsRecord(last, ms, k)
  {
    var init := ms[..k];
    LastIsBound(last, init, KeyOf(ms[k]));
    forall j | 0 <= j < k && Sequenced(ms[j]) && KeyOf(ms[j]) == KeyOf(ms[k])
      ensures ms[j].seqNo.value < ms[k].seqNo.value
    {
      assert init[j] == ms[j];
    }
  }

  // A message is passed on exactly when it has no number to check or is a strict
  // running maximum of its key.
  lemma AcceptedIffRecord<T>(last: LastSeen, ms: seq<Message<T>>, k: nat)
    requires k < |ms|
    ensures Accepts(LastAfter(last, ms[..k]), ms[k]) <==> (Sequenced(ms[k]) ==> IsRecord(last, ms, k))
  {
    if Sequenced(ms[k]) && Accepts(LastAfter(last, ms[..k]), ms[k]) { AcceptedIsRecord(last, ms, k); }
    if Sequenced(ms[k]) && IsRecord(last, ms, k) { RecordIsAccepted(last, ms, k); }
  }

  lemma {:induction false} LastAfterSplits<T>(last: LastSeen, a: seq<Message<T>>, b: seq<Message<T>>)
    ensures LastAfter(last, a + b) == LastAfter(LastAfter(last, a), b)
    ensures Forwarded(last, a + b) == Forwarded(last, a) + Forwarded(LastAfter(last, a), b)
  {
    if b == [] {
      assert a + b == a;
    } else {
      var n := |b| - 1;
      assert (a + b)[..|a + b| - 1] == a + b[..n];
      LastAfterSplits(last, a, b[..n]);
    }
  }

  // Replaying a number at or below one already delivered under the same key, at
  // any later point, changes neither what is passed on nor what is remembered.
  lemma ReplayChangesNothing<T>(last: LastSeen, a: seq<Message<T>>, e: Message<T>, b: seq<Message<T>>)
    requires Sequenced(e)
    requires e.seqNo.value <= Last(last, KeyOf(e))
          || exists j :: 0 <= j < |a| && Sequenced(a[j]) && KeyOf(a[j]) == KeyOf(e) && e.seqNo.value <= a[j].seqNo.value
    ensures Forwarded(last, a + [e] + b) == Forwarded(last, a + b)
    ensures LastAfter(last, a + [e] + b) == LastAfter(last, a + b)
  {
    LastIsBound(last, a, KeyOf(e));
    assert (a + [e])[..|a|] == a;
    LastAfterSplits(last, a + [e], b);
    LastAfterSplits(last, a, b);
  }
}
